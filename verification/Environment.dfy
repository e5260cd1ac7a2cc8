/**
 The DEMO / LIVE environment switch and the live-trading arm of apps/api/src/services: every call as the list of
 its database writes, runs in which a call may crash after any of them, and the class whose methods perform them.
 */
module Environment {
  import opened Wrappers

  datatype TradingEnvironment = Demo | Live

  datatype SwitchState = Idle | Switching

  datatype AccountKind = DemoAccount | LiveAccount | UnknownAccount

  datatype Configuration = Configuration(isActive: bool, resume: bool)

  datatype Engine = Engine(armed: bool, configurations: seq<Configuration>)

  datatype Row = Row(active: TradingEnvironment, blocked: bool, phase: SwitchState, engine: Option<Engine>)

  /** What a switch learns while it runs: unresolved intents, and the probe of the target's terminal. */
  datatype Findings = Findings(ambiguous: bool, connected: bool, kind: AccountKind)

  /** target is None when the requested name is neither DEMO nor LIVE. */
  datatype Call =
    | Switch(target: Option<TradingEnvironment>, capable: bool, findings: Findings)
    | Arm(preflight: bool)
    | Disarm

  predicate Armed(r: Row) {
    r.engine.Some? && r.engine.value.armed
  }

  /** Some active configuration would resume trading after a restart. */
  predicate Resumes(r: Row) {
    r.engine.Some? && exists i | 0 <= i < |r.engine.value.configurations| ::
      r.engine.value.configurations[i].isActive && r.engine.value.configurations[i].resume
  }

  function SetArmed(e: Option<Engine>, armed: bool): Option<Engine> {
    match e
    case None => None
    case Some(engine) => Some(engine.(armed := armed))
  }

  function Halted(cs: seq<Configuration>): (r: seq<Configuration>)
    ensures |r| == |cs|
    ensures forall i | 0 <= i < |cs| :: r[i] == if cs[i].isActive then cs[i].(resume := false) else cs[i]
  {
    seq(|cs|, i requires 0 <= i < |cs| => if cs[i].isActive then cs[i].(resume := false) else cs[i])
  }

  function HaltEngine(e: Option<Engine>): Option<Engine> {
    match e
    case None => None
    case Some(engine) => Some(engine.(configurations := Halted(engine.configurations)))
  }

  predicate GateAllows(target: TradingEnvironment, f: Findings) {
    !f.ambiguous && f.connected && f.kind == if target.Live? then LiveAccount else DemoAccount
  }

  predicate Accepted(target: Option<TradingEnvironment>, capable: bool) {
    target.Some? && (target.value.Live? ==> capable)
  }

  predicate Settled(r: Row, target: TradingEnvironment) {
    r.active == target && r.phase.Idle? && !r.blocked
  }

  function EnsuredEngine(e: Option<Engine>): Option<Engine> {
    if e.None? then Some(Engine(false, [])) else e
  }

  // ----- the writes of a call -----

  /** The row after each write of a switch whose gate has passed. */
  function AfterGate(r: Row, to: TradingEnvironment): seq<Row> {
    var disarmed := r.(engine := SetArmed(r.engine, false));
    var halted := disarmed.(engine := HaltEngine(disarmed.engine));
    [disarmed] + (if r.engine.Some? then [halted] else []) + [halted.(active := to, blocked := false, phase := Idle)]
  }

  /** The row after each write of a switch. */
  function SwitchWrites(r: Row, to: TradingEnvironment, f: Findings): seq<Row> {
    var begun := r.(blocked := true, phase := Switching);
    if !GateAllows(to, f) then [begun, begun.(blocked := false, phase := Idle)]
    else [begun] + AfterGate(begun, to)
  }

  /** The row after each write of a call, when nothing interrupts it. */
  function Writes(r: Row, c: Call): seq<Row> {
    var ensured := r.(engine := EnsuredEngine(r.engine));
    var created := if r.engine.None? then [ensured] else [];
    match c
    case Switch(target, capable, f) =>
      if !Accepted(target, capable) || Settled(r, target.value) then [] else SwitchWrites(r, target.value, f)
    case Arm(preflight) =>
      created + if preflight then [ensured.(engine := SetArmed(ensured.engine, true))] else []
    case Disarm => created + [ensured.(engine := SetArmed(ensured.engine, false))]
  }

  function LastOf(r: Row, rows: seq<Row>): Row {
    if rows == [] then r else rows[|rows| - 1]
  }

  // ----- the calls themselves -----

  class Account {
    var active: TradingEnvironment
    var blocked: bool
    var phase: SwitchState
    var engine: Option<Engine>
    /** The row after every write so far. */
    ghost var log: seq<Row>

    ghost function View(): Row
      reads this
    {
      Row(active, blocked, phase, engine)
    }

    constructor ()
      ensures View() == Row(Demo, false, Idle, None) && log == []
    {
      active, blocked, phase, engine := Demo, false, Idle, None;
      log := [];
    }

    method SwitchTo(target: Option<TradingEnvironment>, capable: bool, f: Findings) returns (r: Result<()>)
      modifies this
      ensures log == old(log) + Writes(old(View()), Switch(target, capable, f))
      ensures View() == LastOf(old(View()), Writes(old(View()), Switch(target, capable, f)))
      ensures r.Ok? <==>
              Accepted(target, capable) && (Settled(old(View()), target.value) || GateAllows(target.value, f))
    {
      if target.None? {
        return Throws("environment must be DEMO or LIVE");
      }
      var to := target.value;
      if to == Live && !capable {
        return Throws("LIVE environment is not supported by server capability gates");
      }
      if active == to && phase == Idle && !blocked {
        return Ok(());
      }
      r := Execute(to, f);
    }

    /** A switch that has something to do. */
    method Execute(to: TradingEnvironment, f: Findings) returns (r: Result<()>)
      modifies this
      ensures log == old(log) + SwitchWrites(old(View()), to, f)
      ensures View() == LastOf(old(View()), SwitchWrites(old(View()), to, f))
      ensures r.Ok? <==> GateAllows(to, f)
    {
      blocked, phase := true, Switching;
      log := log + [View()];
      if !GateAllows(to, f) {
        blocked, phase := false, Idle;
        log := log + [View()];
        return Throws("Environment switch blocked");
      }
      Finish(to);
      return Ok(());
    }

    /** The writes after the gate: disarm, halt, and only then the new environment. */
    method Finish(to: TradingEnvironment)
      modifies this
      ensures log == old(log) + AfterGate(old(View()), to)
      ensures View() == LastOf(old(View()), AfterGate(old(View()), to))
    {
      engine := SetArmed(engine, false);
      log := log + [View()];
      if engine.Some? {
        engine := HaltEngine(engine);
        log := log + [View()];
      }
      active, blocked, phase := to, false, Idle;
      log := log + [View()];
    }

    method EnsureEngine()
      modifies this`engine, this`log
      ensures engine == EnsuredEngine(old(engine))
      ensures log == old(log) + if old(engine).None? then [old(View()).(engine := engine)] else []
    {
      if engine.None? {
        engine := Some(Engine(false, []));
        log := log + [View()];
      }
    }

    method ArmLive(preflight: bool) returns (r: Result<()>)
      modifies this`engine, this`log
      ensures log == old(log) + Writes(old(View()), Arm(preflight))
      ensures View() == LastOf(old(View()), Writes(old(View()), Arm(preflight)))
      ensures r.Ok? <==> preflight
      ensures active == old(active) && blocked == old(blocked) && phase == old(phase)
      ensures engine.Some? && engine.value.armed == (preflight || old(Armed(View())))
    {
      EnsureEngine();
      if !preflight {
        return Throws("Cannot arm live trading");
      }
      engine := SetArmed(engine, true);
      log := log + [View()];
      return Ok(());
    }

    method DisarmLive()
      modifies this`engine, this`log
      ensures log == old(log) + Writes(old(View()), Disarm)
      ensures View() == LastOf(old(View()), Writes(old(View()), Disarm))
      ensures active == old(active) && blocked == old(blocked) && phase == old(phase)
      ensures engine.Some? && !engine.value.armed
    {
      EnsureEngine();
      engine := SetArmed(engine, false);
      log := log + [View()];
    }
  }

  // ----- runs with crashes -----

  /** A call that crashes after the given number of writes, or completes when it has no more. */
  datatype Step = Step(call: Call, writes: nat)

  datatype Entry = Entry(call: Call, row: Row)

  function Entries(c: Call, rows: seq<Row>): (es: seq<Entry>)
    ensures |es| == |rows| && forall i | 0 <= i < |rows| :: es[i] == Entry(c, rows[i])
  {
    seq(|rows|, i requires 0 <= i < |rows| => Entry(c, rows[i]))
  }

  function Performed(r: Row, s: Step): (rows: seq<Row>)
    ensures rows <= Writes(r, s.call)
  {
    if s.writes < |Writes(r, s.call)| then Writes(r, s.call)[..s.writes] else Writes(r, s.call)
  }

  /** Every write of a serial run, with the call that made it. */
  function Log(r: Row, run: seq<Step>): seq<Entry> {
    if run == [] then []
    else
      var es, s := Log(r, run[..|run| - 1]), run[|run| - 1];
      es + Entries(s.call, Performed(RowAt(r, es, |es|), s))
  }

  /** The row after the first k writes of a log. */
  function RowAt(r: Row, es: seq<Entry>, k: nat): Row
    requires k <= |es|
  {
    if k == 0 then r else es[k - 1].row
  }

  // ----- what every single write keeps -----

  predicate Sound(r: Row) {
    r.blocked <==> r.phase.Switching?
  }

  /** What may change between two consecutive rows of a log, and through which call. */
  predicate Local(before: Row, e: Entry) {
    && Sound(e.row)
    && (e.row.active != before.active ==>
          e.call.Switch? && before.blocked && !e.row.blocked && !Armed(e.row) && !Resumes(e.row))
    && (Armed(e.row) && !Armed(before) ==> e.call.Arm? && e.call.preflight)
    && (before.blocked && !e.row.blocked ==> e.call.Switch?)
    && (!before.blocked && e.row.blocked ==> e.call.Switch?)
  }

  lemma HaltedNeverResumes(r: Row, e: Option<Engine>)
    requires r.engine == HaltEngine(e)
    ensures !Resumes(r)
  {
  }

  lemma SwitchWritesLocal(r: Row, to: TradingEnvironment, f: Findings, c: Call, i: nat)
    requires c.Switch? && i < |SwitchWrites(r, to, f)|
    ensures Local(if i == 0 then r else SwitchWrites(r, to, f)[i - 1], Entry(c, SwitchWrites(r, to, f)[i]))
  {
    var last := SwitchWrites(r, to, f)[|SwitchWrites(r, to, f)| - 1];
    if GateAllows(to, f) {
      HaltedNeverResumes(last, SetArmed(r.engine, false));
    }
  }

  lemma WritesLocal(r: Row, c: Call, i: nat)
    requires Sound(r) && i < |Writes(r, c)|
    ensures Local(if i == 0 then r else Writes(r, c)[i - 1], Entry(c, Writes(r, c)[i]))
  {
    if c.Switch? {
      SwitchWritesLocal(r, c.target.value, c.findings, c, i);
    }
  }

  ghost predicate LocalAt(r: Row, es: seq<Entry>, k: nat)
    requires k < |es|
  {
    Local(RowAt(r, es, k), es[k])
  }

  ghost predicate AllLocal(r: Row, es: seq<Entry>) {
    forall k | 0 <= k < |es| :: LocalAt(r, es, k)
  }

  lemma AppendLocal(r: Row, es: seq<Entry>, c: Call, rows: seq<Row>)
    requires AllLocal(r, es) && Sound(r)
    requires rows <= Writes(RowAt(r, es, |es|), c)
    ensures AllLocal(r, es + Entries(c, rows))
  {
    var all, from := es + Entries(c, rows), RowAt(r, es, |es|);
    forall k | 0 <= k < |all| ensures LocalAt(r, all, k) {
      if k < |es| {
        assert LocalAt(r, es, k);
        assert RowAt(r, all, k) == RowAt(r, es, k);
      } else {
        assert es != [] ==> LocalAt(r, es, |es| - 1);
        WritesLocal(from, c, k - |es|);
        assert RowAt(r, all, k) == if k == |es| then from else rows[k - |es| - 1];
      }
    }
  }

  /** Every write of every run with crashes is local. */
  lemma {:induction false} LogLocal(r: Row, run: seq<Step>)
    requires Sound(r)
    ensures AllLocal(r, Log(r, run))
    decreases |run|
  {
    if run != [] {
      var es, s := Log(r, run[..|run| - 1]), run[|run| - 1];
      LogLocal(r, run[..|run| - 1]);
      AppendLocal(r, es, s.call, Performed(RowAt(r, es, |es|), s));
    }
  }

  // ----- safety over whole runs -----

  /** Write k changes the active environment. */
  predicate Changes(r: Row, es: seq<Entry>, k: nat)
    requires k < |es|
  {
    es[k].row.active != RowAt(r, es, k).active
  }

  /** The write that changes the environment leaves live trading disarmed and nothing set to resume, and
      submissions were blocked until it. */
  lemma ChangeDisarms(r: Row, run: seq<Step>, es: seq<Entry>, k: nat)
    requires Sound(r) && es == Log(r, run) && k < |es| && Changes(r, es, k)
    ensures var row := es[k].row; !Armed(row) && !Resumes(row) && !row.blocked && row.phase.Idle?
    ensures RowAt(r, es, k).blocked && es[k].call.Switch?
  {
    LogLocal(r, run);
    assert LocalAt(r, es, k);
  }

  /** Between a disarmed row and an armed one lies a write that arms. */
  lemma {:induction false} ArmedInBetween(r: Row, es: seq<Entry>, i: nat, j: nat) returns (k: nat)
    requires i <= j <= |es| && !Armed(RowAt(r, es, i)) && Armed(RowAt(r, es, j))
    ensures i <= k < j && !Armed(RowAt(r, es, k)) && Armed(es[k].row)
    decreases j - i
  {
    if Armed(RowAt(r, es, j - 1)) {
      k := ArmedInBetween(r, es, i, j - 1);
    } else {
      k := j - 1;
    }
  }

  lemma LocalChange(r: Row, es: seq<Entry>, k: nat)
    requires AllLocal(r, es) && k < |es| && Changes(r, es, k)
    ensures !Armed(es[k].row)
  {
    assert LocalAt(r, es, k);
  }

  lemma LocalArm(r: Row, es: seq<Entry>, k: nat)
    requires AllLocal(r, es) && k < |es| && !Armed(RowAt(r, es, k)) && Armed(es[k].row)
    ensures es[k].call == Arm(true)
  {
    assert LocalAt(r, es, k);
  }

  /** From a disarmed row on, live trading becomes armed only through a passing arm call. */
  lemma ArmedFrom(r: Row, es: seq<Entry>, i: nat, j: nat) returns (k: nat)
    requires AllLocal(r, es) && i <= j < |es| && !Armed(RowAt(r, es, i)) && Armed(es[j].row)
    ensures i <= k <= j && es[k].call == Arm(true) && !Armed(RowAt(r, es, k)) && Armed(es[k].row)
  {
    k := ArmedInBetween(r, es, i, j + 1);
    LocalArm(r, es, k);
  }

  lemma ArmedAfterChange(r: Row, es: seq<Entry>, i: nat, j: nat) returns (k: nat)
    requires AllLocal(r, es) && i < j < |es| && Changes(r, es, i) && Armed(es[j].row)
    ensures i < k <= j && es[k].call == Arm(true) && !Armed(RowAt(r, es, k)) && Armed(es[k].row)
  {
    LocalChange(r, es, i);
    k := ArmedFrom(r, es, i + 1, j);
  }

  /** The arm is never inherited: whenever live trading is armed after an environment change, an arm call that
      passed its preflight ran after that change. */
  lemma ArmNeverInherited(r: Row, run: seq<Step>, es: seq<Entry>, i: nat, j: nat) returns (k: nat)
    requires Sound(r) && es == Log(r, run) && i < j < |es| && Changes(r, es, i) && Armed(es[j].row)
    ensures i < k <= j && es[k].call == Arm(true) && !Armed(RowAt(r, es, k)) && Armed(es[k].row)
  {
    LogLocal(r, run);
    k := ArmedAfterChange(r, es, i, j);
  }

  lemma {:induction false} UnblockedInBetween(r: Row, es: seq<Entry>, i: nat, j: nat) returns (k: nat)
    requires i <= j <= |es| && RowAt(r, es, i).blocked && !RowAt(r, es, j).blocked
    ensures i <= k < j && RowAt(r, es, k).blocked && !es[k].row.blocked
    decreases j - i
  {
    if RowAt(r, es, j - 1).blocked {
      k := j - 1;
    } else {
      k := UnblockedInBetween(r, es, i, j - 1);
    }
  }

  lemma LocalUnblock(r: Row, es: seq<Entry>, k: nat)
    requires AllLocal(r, es) && k < |es| && RowAt(r, es, k).blocked && !es[k].row.blocked
    ensures es[k].call.Switch?
  {
    assert LocalAt(r, es, k);
  }

  lemma UnblockedBySwitch(r: Row, es: seq<Entry>, i: nat, j: nat) returns (k: nat)
    requires AllLocal(r, es) && i < j < |es| && es[i].row.blocked && !es[j].row.blocked
    ensures i < k <= j && es[k].call.Switch? && RowAt(r, es, k).blocked && !es[k].row.blocked
  {
    k := UnblockedInBetween(r, es, i + 1, j + 1);
    LocalUnblock(r, es, k);
  }

  /** A switch that crashed leaves submissions blocked until a later switch finishes: neither arming nor disarming
      releases them. */
  lemma OnlySwitchUnblocks(r: Row, run: seq<Step>, es: seq<Entry>, i: nat, j: nat) returns (k: nat)
    requires Sound(r) && es == Log(r, run) && i < j < |es| && es[i].row.blocked && !es[j].row.blocked
    ensures i < k <= j && es[k].call.Switch? && RowAt(r, es, k).blocked && !es[k].row.blocked
  {
    LogLocal(r, run);
    k := UnblockedBySwitch(r, es, i, j);
  }

  /** The live half of the execution readiness the status reports. */
  predicate LiveReady(r: Row, capable: bool, kind: AccountKind) {
    r.active.Live? && capable && Armed(r) && !r.blocked && r.phase.Idle? && kind.LiveAccount?
  }

  lemma {:induction false} ChangeInBetween(r: Row, es: seq<Entry>, j: nat) returns (i: nat)
    requires j <= |es| && RowAt(r, es, j).active != r.active
    ensures i < j && Changes(r, es, i) && es[i].row.active == RowAt(r, es, j).active
    ensures forall k | i < k < j :: !Changes(r, es, k)
    decreases j
  {
    if Changes(r, es, j - 1) {
      i := j - 1;
    } else {
      i := ChangeInBetween(r, es, j - 1);
    }
  }

  lemma EarnedSinceChange(r: Row, es: seq<Entry>, j: nat) returns (i: nat, k: nat)
    requires AllLocal(r, es) && r.active.Demo? && j < |es| && es[j].row.active.Live? && Armed(es[j].row)
    ensures i < k <= j && Changes(r, es, i) && es[i].row.active.Live? && es[k].call == Arm(true)
    ensures forall m | i < m <= j :: !Changes(r, es, m)
  {
    i := ChangeInBetween(r, es, j + 1);
    LocalChange(r, es, i);
    k := ArmedAfterChange(r, es, i, j);
  }

  /** From an account that starts on DEMO, live readiness means: some write switched to LIVE, none switched since,
      and an arm call passed after it. */
  lemma LiveReadinessEarned(r: Row, run: seq<Step>, es: seq<Entry>, j: nat, capable: bool, kind: AccountKind)
    returns (i: nat, k: nat)
    requires Sound(r) && r.active.Demo? && es == Log(r, run) && j < |es| && LiveReady(es[j].row, capable, kind)
    ensures i < k <= j && Changes(r, es, i) && es[i].row.active.Live? && es[k].call == Arm(true)
    ensures forall m | i < m <= j :: !Changes(r, es, m)
  {
    LogLocal(r, run);
    i, k := EarnedSinceChange(r, es, j);
  }

  // ----- one switch -----

  /** Submissions are blocked from a switch's first write until its last, which is the only one that may change
      the environment. */
  lemma BlockedThroughout(r: Row, c: Call, i: nat)
    requires c.Switch? && i < |Writes(r, c)|
    ensures var rows := Writes(r, c);
            && (rows[i].blocked <==> i < |rows| - 1)
            && (i < |rows| - 1 ==> rows[i].active == r.active)
  {
  }

  /** A completed switch whose gate fails undoes its own block and changes nothing else; one whose gate passes
      ends on the target, unblocked, disarmed and with nothing set to resume, whatever crash came before. */
  lemma CompletedSwitch(r: Row, target: TradingEnvironment, capable: bool, f: Findings)
    requires Accepted(Some(target), capable) && !Settled(r, target)
    ensures var end := LastOf(r, Writes(r, Switch(Some(target), capable, f)));
            if GateAllows(target, f)
            then end.active == target && !end.blocked && end.phase.Idle? && !Armed(end) && !Resumes(end)
            else end == r.(blocked := false, phase := Idle)
  {
    var rows := SwitchWrites(r, target, f);
    if GateAllows(target, f) {
      HaltedNeverResumes(rows[|rows| - 1], SetArmed(r.engine, false));
    }
  }

  /** A switch to the other environment takes effect exactly when the server supports the target, no intent is
      unresolved, and the target's terminal is connected to an account of the target's kind. */
  lemma SwitchesExactly(r: Row, target: Option<TradingEnvironment>, capable: bool, f: Findings)
    ensures var end := LastOf(r, Writes(r, Switch(target, capable, f)));
            end.active != r.active
            <==> && target.Some? && target.value != r.active
                 && !f.ambiguous && f.connected
                 && match target.value {
                      case Live => capable && f.kind.LiveAccount?
                      case Demo => f.kind.DemoAccount?
                    }
  {
  }

  /** Whatever crash came before, an accepted switch that runs to its end releases submissions: on the target if its
      checks pass, on the environment it found otherwise. A switch to where the account already is does nothing. */
  lemma SwitchReleases(r: Row, target: TradingEnvironment, capable: bool, f: Findings)
    requires Accepted(Some(target), capable)
    ensures var end := LastOf(r, Writes(r, Switch(Some(target), capable, f)));
            && !end.blocked && end.phase.Idle?
            && (GateAllows(target, f) ==> end.active == target)
            && (!GateAllows(target, f) ==> end.active == r.active)
            && (r.active == target && !r.blocked && r.phase.Idle? ==> end == r)
  {
  }

  // ----- one arm, one disarm -----

  predicate SameConfigurations(a: Row, b: Row) {
    a.engine.Some? ==> b.engine.Some? && b.engine.value.configurations == a.engine.value.configurations
  }

  /** A completed disarm leaves the engine in place and disarmed, and touches nothing else. */
  lemma DisarmDisarms(r: Row)
    ensures var end := LastOf(r, Writes(r, Disarm));
            && end.engine.Some? && !Armed(end)
            && end == r.(engine := end.engine) && SameConfigurations(r, end)
  {
  }

  /** A completed arm whose preflight passes leaves the engine armed, one whose preflight fails leaves it as it was;
      neither touches anything else. */
  lemma ArmArms(r: Row, preflight: bool)
    ensures var end := LastOf(r, Writes(r, Arm(preflight)));
            && end.engine.Some? && (Armed(end) <==> preflight || Armed(r))
            && end == r.(engine := end.engine) && SameConfigurations(r, end)
  {
  }

  lemma {:induction false} LogPrefix(r: Row, run: seq<Step>, m: nat)
    requires m <= |run|
    ensures Log(r, run[..m]) <= Log(r, run)
    decreases |run|
  {
    if m == |run| {
      assert run[..m] == run;
    } else {
      assert run[..|run| - 1][..m] == run[..m];
      LogPrefix(r, run[..|run| - 1], m);
    }
  }

  /** Call m of the run was not interrupted. */
  predicate Completes(r: Row, run: seq<Step>, m: nat)
    requires m < |run|
  {
    var es := Log(r, run[..m]);
    run[m].writes >= |Writes(RowAt(r, es, |es|), run[m].call)|
  }

  lemma DisarmedAfter(r: Row, run: seq<Step>, m: nat, before: seq<Entry>, after: seq<Entry>)
    requires m < |run| && run[m].call.Disarm? && Completes(r, run, m)
    requires before == Log(r, run[..m]) && after == Log(r, run[..m + 1])
    ensures !Armed(RowAt(r, after, |after|))
  {
    assert run[..m + 1][..m] == run[..m];
    DisarmDisarms(RowAt(r, before, |before|));
  }

  lemma DisarmedWithin(r: Row, run: seq<Step>, es: seq<Entry>, m: nat, i: nat)
    requires es == Log(r, run) && m < |run| && run[m].call.Disarm? && Completes(r, run, m)
    requires i == |Log(r, run[..m + 1])|
    ensures i <= |es| && !Armed(RowAt(r, es, i))
  {
    var after := Log(r, run[..m + 1]);
    LogPrefix(r, run, m + 1);
    DisarmedAfter(r, run, m, Log(r, run[..m]), after);
    assert RowAt(r, es, i) == RowAt(r, after, i);
  }

  /** After a completed disarm live trading is armed again only by a later arm call that passed its preflight,
      whatever switches, disarms and crashes lie in between. */
  lemma DisarmHolds(r: Row, run: seq<Step>, es: seq<Entry>, m: nat, i: nat, j: nat) returns (k: nat)
    requires Sound(r) && es == Log(r, run) && m < |run| && run[m].call.Disarm? && Completes(r, run, m)
    requires i == |Log(r, run[..m + 1])| && i <= j < |es| && Armed(es[j].row)
    ensures i <= k <= j && es[k].call == Arm(true) && !Armed(RowAt(r, es, k)) && Armed(es[k].row)
  {
    LogLocal(r, run);
    DisarmedWithin(r, run, es, m, i);
    k := ArmedFrom(r, es, i, j);
  }
}
