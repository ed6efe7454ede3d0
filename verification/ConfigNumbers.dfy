/** The stored settings in numbers and words: what every run of updates keeps, and for what an update is
    refused, said of the texts that were sent and not of the rules that read them. */
module ConfigNumbers {
  import opened Common
  import opened ConfigStages
  import opened ConfigUpdate
  import opened Text

  // ---------------------------------------------------------------- what each setting may hold

  /** The text is a whole number from `lo` to `hi`. */
  predicate WholeBetween(f: Floats, text: string, lo: int, hi: int) {
    WholeFrom(f, text, lo) && f.read(text).v <= hi as real
  }

  predicate WholeFrom(f: Floats, text: string, lo: int) {
    f.read(text).Finite? && f.read(text).v.Floor as real == f.read(text).v && lo as real <= f.read(text).v
  }

  predicate Between(f: Floats, text: string, top: real) {
    f.read(text).Finite? && 0.0 <= f.read(text).v <= top
  }

  predicate Says(text: string, words: set<string>) {
    Lower(Strip(text)) in words
  }

  const YES := {"1", "true", "yes", "on", "y", "是", "开启", "启用"}
  const REQUIRED := {"1", "true", "yes", "on", "required", "strict"}
  const OFF := {"0", "false", "no", "off", "disabled"}
  const AUTO := {"auto"}
  const UNPROXIED := {"direct", "none", "no_proxy", "直连"}
  const NAMED := {"specified", "manual", "explicit"}

  predicate MayHold(f: Floats, k: Key, text: string) {
    match k
    case ProtocolDefault | ProtocolMax => WholeBetween(f, text, 1, 3)
    case BrowserDefault | BrowserMax | AuthBrowserMax => WholeFrom(f, text, 1)
    case RegistrationReserve | RecheckReserve => WholeFrom(f, text, 0)
    case RefreshAttempts => WholeBetween(f, text, 1, 12)
    case ProbeTimeout => WholeBetween(f, text, 2, 60)
    case ActiveTtl => WholeBetween(f, text, 900, 7200)
    case Cooldown => WholeBetween(f, text, 0, 7200)
    case HoldSessions => WholeBetween(f, text, 1, 32)
    case PidBudget | PidReserve => WholeBetween(f, text, 0, 4096)
    case HostMemoryReserve => WholeBetween(f, text, 0, 262144)
    case SolverMax => WholeBetween(f, text, 1, 15)
    case SolverWarm => WholeBetween(f, text, 0, 15)
    case SolverIdle => WholeBetween(f, text, 30, 86400)
    case TransitionTimeout => WholeBetween(f, text, 20, 120)
    case ProbeConcurrency => WholeBetween(f, text, 1, 10)
    case RegisterDelay | RegisterDelayMax | ProbeDelay | ProbeDelayMax => Between(f, text, 3600.0)
    case CpuPsi => Between(f, text, 100.0)
    case LaunchInterval => Between(f, text, 60.0)
    case CapacityMode => Says(text, {"adaptive", "fixed"})
    case SolverMode => Says(text, {"auto", "fixed"})
    case RegisterPolicy => Says(text, REQUIRED + OFF + AUTO)
    case RegisterUnique | ProbeUnique | ProxyMode | ProxyFailover | Other(_) => true
  }

  /** A field is taken exactly when it holds what its setting may hold. */
  lemma FieldTakenIff(f: Floats, k: Key, text: string)
    ensures FieldOf(f, KindOf(k), text).Some? <==> MayHold(f, k, text)
  {
  }

  predicate InNumbers(k: Key) {
    KindOf(k).Integer? || KindOf(k).Number?
  }

  /** What is stored for a field says what was sent: the same number, the word in lower case, the switch,
      the meaning of a policy word, or the text itself. */
  lemma StoredSaysSent(f: Floats, k: Key, text: string)
    requires Lawful(f) && MayHold(f, k, text)
    ensures FieldOf(f, KindOf(k), text).Some?
    ensures var stored := FieldOf(f, KindOf(k), text).value;
      && (InNumbers(k) ==> f.read(stored) == f.read(text))
      && (k in {CapacityMode, SolverMode} ==> stored == Lower(Strip(text)))
      && (k in {RegisterUnique, ProbeUnique} ==> stored == if Says(text, YES) then "true" else "false")
      && (k == RegisterPolicy ==> stored == if Says(text, REQUIRED) then "required" else if Says(text, OFF) then "off" else "auto")
      && (k in {ProxyMode, ProxyFailover} || k.Other? ==> stored == text)
  {
    FieldTakenIff(f, k, text);
    if InNumbers(k) {
      assert f.read(f.show(f.read(text).v)) == f.read(text);
    }
  }

  // ---------------------------------------------------------------- whole configurations

  /** The number a setting stands for: the one stored, or its default. */
  function Amount(f: Floats, c: Config, k: Key, default: real): real {
    if k in c && f.read(c[k]).Finite? then f.read(c[k]).v else default
  }

  predicate ConcurrencyAboveMax(f: Floats, c: Config) {
    || Amount(f, c, ProtocolDefault, 2.0) > Amount(f, c, ProtocolMax, 3.0)
    || Amount(f, c, BrowserDefault, 2.0) > Amount(f, c, BrowserMax, 2.0)
  }

  /** A maximum of zero means no upper delay. */
  predicate RegisterDelaysReversed(f: Floats, c: Config) {
    0.0 < Amount(f, c, RegisterDelayMax, 30.0) < Amount(f, c, RegisterDelay, 15.0)
  }

  predicate ReservesAboveCap(f: Floats, c: Config) {
    Amount(f, c, RegistrationReserve, 4.0) + Amount(f, c, RecheckReserve, 2.0) > Amount(f, c, AuthBrowserMax, 6.0)
  }

  predicate WarmAboveSolvers(f: Floats, c: Config) {
    Amount(f, c, SolverWarm, 0.0) > Amount(f, c, SolverMax, 4.0)
  }

  predicate ProbeDelaysReversed(f: Floats, c: Config) {
    Amount(f, c, ProbeDelayMax, 0.0) < Amount(f, c, ProbeDelay, 0.0)
  }

  /** A separate exit is asked for without a proxy, or with a named proxy that may not be switched. */
  predicate ExitImpossible(c: Config) {
    && ProbeUnique in c && Says(c[ProbeUnique], YES)
    && ProxyMode in c
    && (Says(c[ProxyMode], UNPROXIED)
        || (Says(c[ProxyMode], NAMED) && !(ProxyFailover in c && Says(c[ProxyFailover], YES))))
  }

  /** Every stored setting holds what it may, and reads as a number where it is one. */
  ghost predicate AllHold(f: Floats, c: Config) {
    forall k :: k in c ==> MayHold(f, k, c[k])
  }

  lemma WholeIs(f: Floats, c: Config, k: Key, default: int)
    requires Lawful(f) && AllHold(f, c) && KindOf(k).Integer? && KindOf(k).lo >= 0
    ensures WholeOr(f, ValueOf(c, k), default) as real == Amount(f, c, k, default as real)
    ensures default >= 0 ==> Truncated(f, ValueOf(c, k), default) == Some(WholeOr(f, ValueOf(c, k), default))
    ensures !f.read(ValueOf(c, k)).Infinite? && !Garbled(f, ValueOf(c, k))
  {
    if k in c {
      assert MayHold(f, k, c[k]);
      FieldTakenIff(f, k, c[k]);
    }
  }

  lemma DelayIs(f: Floats, c: Config, k: Key, default: real)
    requires Lawful(f) && AllHold(f, c) && KindOf(k).Number?
    ensures DelayOr(f, ValueOf(c, k), default) == Amount(f, c, k, default)
  {
    if k in c {
      assert MayHold(f, k, c[k]);
      FieldTakenIff(f, k, c[k]);
    }
  }

  lemma RegisterFaultIs(f: Floats, c: Config)
    requires Lawful(f) && AllHold(f, c)
    ensures RegisterFault(f, c) == if ConcurrencyAboveMax(f, c) then Some(DefaultAboveMax)
                                   else if RegisterDelaysReversed(f, c) then Some(DelaysReversed) else None
  {
    WholeIs(f, c, ProtocolDefault, 2);
    WholeIs(f, c, ProtocolMax, 3);
    WholeIs(f, c, BrowserDefault, 2);
    WholeIs(f, c, BrowserMax, 2);
    DelayIs(f, c, RegisterDelay, 15.0);
    DelayIs(f, c, RegisterDelayMax, 30.0);
    if RegisterDelayMax in c {
      FieldTakenIff(f, RegisterDelayMax, c[RegisterDelayMax]);
    }
  }

  lemma RuntimeFaultsAre(f: Floats, c: Config)
    requires Lawful(f) && AllHold(f, c)
    ensures ReserveFault(f, c) == if ReservesAboveCap(f, c) then Some(ReservesExceedCap) else None
    ensures SolverFault(f, c) == if WarmAboveSolvers(f, c) then Some(WarmAboveMax) else None
  {
    WholeIs(f, c, AuthBrowserMax, 6);
    WholeIs(f, c, RegistrationReserve, 4);
    WholeIs(f, c, RecheckReserve, 2);
    WholeIs(f, c, SolverMax, 4);
    WholeIs(f, c, SolverWarm, 0);
  }

  lemma EmptyWord()
    ensures Lower(Strip("")) == ""
  {
    StripFixed("");
  }

  lemma NotYes()
    ensures "" !in YES
  {
  }

  lemma NoSuchMode(w: string)
    requires w == "" || w == "dynamic"
    ensures w !in UNPROXIED && w !in NAMED
  {
  }

  lemma SwitchSays(b: bool)
    ensures Says(if b then "true" else "false", YES) <==> b
  {
    FlagsRead(b);
  }

  lemma SwitchIsOn(text: string)
    ensures On(text) <==> Says(text, YES)
  {
  }

  lemma NothingSaid()
    ensures !On("") && !Says("", UNPROXIED) && !Says("", NAMED)
    ensures Lower(Strip("dynamic")) == "dynamic"
  {
    EmptyWord();
    NotYes();
    SwitchIsOn("");
    NoSuchMode("");
    FixedWord("dynamic");
  }

  /** The proxy rule, said of the mode that is stored; the default mode is one that uses a proxy. */
  lemma ProxyRule(raw: string, failover: bool)
    ensures ProxyCanDiffer(raw, failover) <==> !Says(raw, UNPROXIED) && (Says(raw, NAMED) ==> failover)
  {
    NothingSaid();
    NoSuchMode("dynamic");
  }

  lemma ExitIs(c: Config)
    ensures ExitCanDiffer(c) <==> !ExitImpossible(c)
  {
    NothingSaid();
    ProxyRule(ValueOf(c, ProxyMode), On(ValueOf(c, ProxyFailover)));
    SwitchIsOn(ValueOf(c, ProbeUnique));
    SwitchIsOn(ValueOf(c, ProxyFailover));
  }

  lemma ProbeFaultIs(f: Floats, c: Config)
    requires Lawful(f) && AllHold(f, c)
    ensures ProbeFault(f, c) == if ProbeDelaysReversed(f, c) then Some(DelaysReversed)
                                else if ExitImpossible(c) then Some(NoSeparateExit) else None
  {
    DelayIs(f, c, ProbeDelay, 0.0);
    DelayIs(f, c, ProbeDelayMax, 0.0);
    ExitIs(c);
  }

  // ---------------------------------------------------------------- what every run keeps

  lemma ConsistentHolds(f: Floats, c: Config)
    requires Lawful(f) && Consistent(RulesOf(f), c)
    ensures AllHold(f, c)
  {
    var r := RulesOf(f);
    forall k | k in c ensures MayHold(f, k, c[k]) {
      if k != RegisterUnique {
        assert r.field(k, c[k]) == Some(c[k]);
        FieldTakenIff(f, k, c[k]);
      }
    }
  }

  lemma SavedIsConsistent(f: Floats, updates: seq<Config>)
    requires Lawful(f)
    ensures FieldsSteady(RulesOf(f)) && ChecksFramed(RulesOf(f))
    ensures Consistent(RulesOf(f), Saved(RulesOf(f), map[], updates))
  {
    DefaultsConsistent(f);
    FieldsAreSteady(f);
    ChecksAreFramed(f);
    RunsStayConsistent(RulesOf(f), map[], updates);
  }

  lemma ConsistentInNumbers(f: Floats, c: Config)
    requires Lawful(f) && Consistent(RulesOf(f), c)
    ensures AllHold(f, c)
    ensures !ConcurrencyAboveMax(f, c) && !RegisterDelaysReversed(f, c) && !ReservesAboveCap(f, c)
    ensures !WarmAboveSolvers(f, c) && !ProbeDelaysReversed(f, c) && !ExitImpossible(c)
  {
    var r := RulesOf(f);
    ConsistentHolds(f, c);
    RegisterFaultIs(f, c);
    RuntimeFaultsAre(f, c);
    ProbeFaultIs(f, c);
    assert r.registerFault(c) == RegisterFault(f, c) && r.reserveFault(c) == ReserveFault(f, c);
    assert r.solverFault(c) == SolverFault(f, c) && r.probeFault(c) == ProbeFault(f, c);
  }

  /** From the defaults, through any list of updates, accepted or refused: every stored setting holds what
      it may hold, in normal form; default concurrency, reserves and warm solvers are within their maxima; both delay
      pairs are in order; a separate exit is possible; and the policy and the old switch say the same. */
  lemma SettingsStayConsistent(f: Floats, updates: seq<Config>)
    requires Lawful(f)
    ensures var c := Saved(RulesOf(f), map[], updates);
      && (forall k :: k in c ==> MayHold(f, k, c[k]))
      && (forall k :: k in c && k != RegisterUnique ==> FieldOf(f, KindOf(k), c[k]) == Some(c[k]))
      && Amount(f, c, ProtocolDefault, 2.0) <= Amount(f, c, ProtocolMax, 3.0)
      && Amount(f, c, BrowserDefault, 2.0) <= Amount(f, c, BrowserMax, 2.0)
      && Amount(f, c, RegistrationReserve, 4.0) + Amount(f, c, RecheckReserve, 2.0) <= Amount(f, c, AuthBrowserMax, 6.0)
      && Amount(f, c, SolverWarm, 0.0) <= Amount(f, c, SolverMax, 4.0)
      && (Amount(f, c, RegisterDelayMax, 30.0) > 0.0 ==>
            Amount(f, c, RegisterDelay, 15.0) <= Amount(f, c, RegisterDelayMax, 30.0))
      && Amount(f, c, ProbeDelay, 0.0) <= Amount(f, c, ProbeDelayMax, 0.0)
  {
    var c := Saved(RulesOf(f), map[], updates);
    SavedIsConsistent(f, updates);
    ConsistentInNumbers(f, c);
    forall k | k in c && k != RegisterUnique ensures FieldOf(f, KindOf(k), c[k]) == Some(c[k]) {
      assert RulesOf(f).field(k, c[k]) == Some(c[k]);
    }
  }

  /** The registration delays, read off the stored texts, with the defaults 15 and 30 for what is absent. */
  lemma RegisterDelaysStayOrdered(f: Floats, updates: seq<Config>, lo: real, hi: real)
    requires Lawful(f)
    requires var c := Saved(RulesOf(f), map[], updates);
             && (if RegisterDelay in c then f.read(c[RegisterDelay]) == Finite(lo) else lo == 15.0)
             && (if RegisterDelayMax in c then f.read(c[RegisterDelayMax]) == Finite(hi) else hi == 30.0)
    ensures 0.0 <= lo <= 3600.0 && 0.0 <= hi <= 3600.0 && (hi > 0.0 ==> lo <= hi)
  {
    SettingsStayConsistent(f, updates);
    var c := Saved(RulesOf(f), map[], updates);
    assert RegisterDelay in c ==> MayHold(f, RegisterDelay, c[RegisterDelay]);
    assert RegisterDelayMax in c ==> MayHold(f, RegisterDelayMax, c[RegisterDelayMax]);
  }

  /** In words: with the separate exit switched on, the stored mode is none of those without a proxy, and
      a named proxy is stored only together with the right to switch it. */
  lemma ExitStaysPossible(f: Floats, updates: seq<Config>)
    requires Lawful(f)
    ensures var c := Saved(RulesOf(f), map[], updates);
      ProbeUnique in c && c[ProbeUnique] == "true" && ProxyMode in c ==>
        && Lower(Strip(c[ProxyMode])) !in {"direct", "none", "no_proxy", "直连"}
        && (Lower(Strip(c[ProxyMode])) in {"specified", "manual", "explicit"} ==>
              ProxyFailover in c && Lower(Strip(c[ProxyFailover])) in {"1", "true", "yes", "on", "y", "是", "开启", "启用"})
  {
    SavedIsConsistent(f, updates);
    var c := Saved(RulesOf(f), map[], updates);
    ConsistentInNumbers(f, c);
    if ProbeUnique in c && c[ProbeUnique] == "true" && ProxyMode in c {
      ExitInWords(c);
    }
  }

  lemma ExitInWords(c: Config)
    requires !ExitImpossible(c) && ProbeUnique in c && c[ProbeUnique] == "true" && ProxyMode in c
    ensures Lower(Strip(c[ProxyMode])) !in {"direct", "none", "no_proxy", "直连"}
    ensures Lower(Strip(c[ProxyMode])) in {"specified", "manual", "explicit"} ==>
              ProxyFailover in c && Lower(Strip(c[ProxyFailover])) in {"1", "true", "yes", "on", "y", "是", "开启", "启用"}
  {
    SwitchSays(true);
  }

  /** Policy and switch are stored together, and say the same in all three states. */
  lemma PolicyAndSwitchAgree(f: Floats, updates: seq<Config>)
    requires Lawful(f)
    ensures var c := Saved(RulesOf(f), map[], updates);
      && (RegisterPolicy in c <==> RegisterUnique in c)
      && (RegisterPolicy in c ==>
            (c[RegisterPolicy], c[RegisterUnique]) in {("auto", ""), ("required", "true"), ("off", "false")})
  {
    SavedIsConsistent(f, updates);
  }

  // ---------------------------------------------------------------- what an update is refused for

  /** The stored configuration with the texts of the update put in as they were sent. */
  function Proposed(c: Config, safe: Config): Config {
    c + safe
  }

  lemma ProposedAt(f: Floats, c: Config, safe: Config, k: Key)
    requires FieldsValid(RulesOf(f), safe) && !Linked(k)
    ensures var n, m := c + NormalForm(RulesOf(f), safe), Proposed(c, safe);
      && (k in n <==> k in m)
      && (k in safe ==> MayHold(f, k, safe[k]) && FieldOf(f, KindOf(k), safe[k]) == Some(n[k]) && m[k] == safe[k])
      && (k !in safe && k in m ==> n[k] == m[k])
  {
    var r := RulesOf(f);
    CoherentAt(NormalFields(r, safe), k);
    if k in safe {
      assert r.field(k, safe[k]) == Some(NormalFields(r, safe)[k]);
      FieldTakenIff(f, k, safe[k]);
    }
  }

  lemma ProposedAmount(f: Floats, c: Config, safe: Config, k: Key, default: real)
    requires Lawful(f) && FieldsValid(RulesOf(f), safe) && InNumbers(k)
    ensures Amount(f, c + NormalForm(RulesOf(f), safe), k, default) == Amount(f, Proposed(c, safe), k, default)
  {
    ProposedAt(f, c, safe, k);
    if k in safe {
      StoredSaysSent(f, k, safe[k]);
    }
  }

  lemma ProposedExit(f: Floats, c: Config, safe: Config)
    requires Lawful(f) && FieldsValid(RulesOf(f), safe)
    ensures ExitImpossible(c + NormalForm(RulesOf(f), safe)) == ExitImpossible(Proposed(c, safe))
  {
    var n, m := c + NormalForm(RulesOf(f), safe), Proposed(c, safe);
    ProposedAt(f, c, safe, ProbeUnique);
    ProposedAt(f, c, safe, ProxyMode);
    ProposedAt(f, c, safe, ProxyFailover);
    if ProbeUnique in safe {
      StoredSaysSent(f, ProbeUnique, safe[ProbeUnique]);
      SwitchSays(Says(safe[ProbeUnique], YES));
    }
    if ProxyMode in safe { StoredSaysSent(f, ProxyMode, safe[ProxyMode]); }
    if ProxyFailover in safe { StoredSaysSent(f, ProxyFailover, safe[ProxyFailover]); }
    SameExit(n, m);
  }

  lemma SameExit(n: Config, m: Config)
    requires ProbeUnique in n && Says(n[ProbeUnique], YES) <==> ProbeUnique in m && Says(m[ProbeUnique], YES)
    requires (ProxyMode in n <==> ProxyMode in m) && (ProxyMode in n ==> n[ProxyMode] == m[ProxyMode])
    requires (ProxyFailover in n <==> ProxyFailover in m) && (ProxyFailover in n ==> n[ProxyFailover] == m[ProxyFailover])
    ensures ExitImpossible(n) == ExitImpossible(m)
  {
  }

  lemma ProposedRegister(f: Floats, c: Config, safe: Config)
    requires Lawful(f) && FieldsValid(RulesOf(f), safe)
    ensures var n, m := c + NormalForm(RulesOf(f), safe), Proposed(c, safe);
      ConcurrencyAboveMax(f, n) == ConcurrencyAboveMax(f, m) && RegisterDelaysReversed(f, n) == RegisterDelaysReversed(f, m)
  {
    ProposedAmount(f, c, safe, ProtocolDefault, 2.0);
    ProposedAmount(f, c, safe, ProtocolMax, 3.0);
    ProposedAmount(f, c, safe, BrowserDefault, 2.0);
    ProposedAmount(f, c, safe, BrowserMax, 2.0);
    ProposedAmount(f, c, safe, RegisterDelay, 15.0);
    ProposedAmount(f, c, safe, RegisterDelayMax, 30.0);
  }

  lemma ProposedRuntime(f: Floats, c: Config, safe: Config)
    requires Lawful(f) && FieldsValid(RulesOf(f), safe)
    ensures var n, m := c + NormalForm(RulesOf(f), safe), Proposed(c, safe);
      ReservesAboveCap(f, n) == ReservesAboveCap(f, m) && WarmAboveSolvers(f, n) == WarmAboveSolvers(f, m)
  {
    ProposedAmount(f, c, safe, AuthBrowserMax, 6.0);
    ProposedAmount(f, c, safe, RegistrationReserve, 4.0);
    ProposedAmount(f, c, safe, RecheckReserve, 2.0);
    ProposedAmount(f, c, safe, SolverMax, 4.0);
    ProposedAmount(f, c, safe, SolverWarm, 0.0);
  }

  lemma ProposedProbe(f: Floats, c: Config, safe: Config)
    requires Lawful(f) && FieldsValid(RulesOf(f), safe)
    ensures ProbeDelaysReversed(f, c + NormalForm(RulesOf(f), safe)) == ProbeDelaysReversed(f, Proposed(c, safe))
  {
    ProposedAmount(f, c, safe, ProbeDelay, 0.0);
    ProposedAmount(f, c, safe, ProbeDelayMax, 0.0);
  }

  /** What is wrong with the settings an update proposes, in the order in which it is looked for. */
  function Objection(f: Floats, m: Config): Option<Fault> {
    if ConcurrencyAboveMax(f, m) then Some(DefaultAboveMax)
    else if RegisterDelaysReversed(f, m) then Some(DelaysReversed)
    else if ReservesAboveCap(f, m) then Some(ReservesExceedCap)
    else if WarmAboveSolvers(f, m) then Some(WarmAboveMax)
    else if ProbeDelaysReversed(f, m) then Some(DelaysReversed)
    else if ExitImpossible(m) then Some(NoSeparateExit)
    else None
  }

  lemma SameObjection(f: Floats, c: Config, safe: Config)
    requires Lawful(f) && FieldsValid(RulesOf(f), safe)
    ensures Objection(f, c + NormalForm(RulesOf(f), safe)) == Objection(f, Proposed(c, safe))
  {
    ProposedRegister(f, c, safe);
    ProposedRuntime(f, c, safe);
    ProposedProbe(f, c, safe);
    ProposedExit(f, c, safe);
  }

  lemma FirstFaultIs(f: Floats, c: Config)
    requires Lawful(f) && AllHold(f, c)
    ensures FirstFault(RulesOf(f), c) == Objection(f, c)
  {
    var r := RulesOf(f);
    RegisterFaultIs(f, c);
    RuntimeFaultsAre(f, c);
    ProbeFaultIs(f, c);
    assert r.registerFault(c) == RegisterFault(f, c) && r.reserveFault(c) == ReserveFault(f, c);
    assert r.solverFault(c) == SolverFault(f, c) && r.probeFault(c) == ProbeFault(f, c);
  }

  /** After any updates: an update of fields that hold what they may is refused for the first objection to
      the numbers and words it proposes together with the stored ones, and accepted without one; an update
      with any other field is refused. */
  lemma RefusedForObjection(f: Floats, updates: seq<Config>, safe: Config)
    requires Lawful(f)
    ensures var r := RulesOf(f);
            var c := Saved(r, map[], updates);
            var u := Update(r, safe, c);
      if forall k :: k in safe ==> MayHold(f, k, safe[k])
      then match Objection(f, Proposed(c, safe)) { case Some(e) => u == Err(e) case None => u.Ok? }
      else u.Err?
  {
    var r := RulesOf(f);
    var c := Saved(r, map[], updates);
    SavedIsConsistent(f, updates);
    ValidIffHold(f, safe);
    if AllHold(f, safe) {
      RefusalExact(r, safe, c);
      NormalFormFields(r, safe);
      MergeKeepsFields(r, c, NormalForm(r, safe));
      NormalHolds(f, c + NormalForm(r, safe));
      FirstFaultIs(f, c + NormalForm(r, safe));
      SameObjection(f, c, safe);
    } else {
      UpdateExact(r, safe, c);
    }
  }

  lemma ValidIffHold(f: Floats, safe: Config)
    ensures FieldsValid(RulesOf(f), safe) <==> AllHold(f, safe)
  {
    var r := RulesOf(f);
    forall k | k in safe ensures r.field(k, safe[k]).Some? <==> MayHold(f, k, safe[k]) {
      FieldTakenIff(f, k, safe[k]);
    }
  }

  lemma NormalHolds(f: Floats, c: Config)
    requires FieldsNormal(RulesOf(f), c)
    ensures AllHold(f, c)
  {
    var r := RulesOf(f);
    forall k | k in c ensures MayHold(f, k, c[k]) {
      if k != RegisterUnique {
        assert r.field(k, c[k]) == Some(c[k]);
      }
      FieldTakenIff(f, k, c[k]);
    }
  }

  /** So a registration maximum below the minimum is refused with its own fault. */
  lemma ReversedDelaysRefused(f: Floats, updates: seq<Config>, safe: Config, lo: real, hi: real)
    requires Lawful(f) && AllHold(f, safe)
    requires RegisterDelay in safe && f.read(safe[RegisterDelay]) == Finite(lo)
    requires RegisterDelayMax in safe && f.read(safe[RegisterDelayMax]) == Finite(hi)
    requires 0.0 < hi < lo && !ConcurrencyAboveMax(f, Proposed(Saved(RulesOf(f), map[], updates), safe))
    ensures Update(RulesOf(f), safe, Saved(RulesOf(f), map[], updates)) == Err(DelaysReversed)
  {
    RefusedForObjection(f, updates, safe);
  }

  // ---------------------------------------------------------------- what an accepted update stores

  /** Accepted fields say, once stored, what was sent; settings that were not sent stay. */
  lemma AcceptedIsStored(f: Floats, updates: seq<Config>, safe: Config, k: Key)
    requires Lawful(f) && Update(RulesOf(f), safe, Saved(RulesOf(f), map[], updates)).Ok? && !Linked(k)
    ensures var r := RulesOf(f);
            var c := Saved(r, map[], updates);
            var n := c + Update(r, safe, c).value;
      && (k in safe ==> k in n && MayHold(f, k, safe[k]))
      && (k in safe && InNumbers(k) ==> f.read(n[k]) == f.read(safe[k]))
      && (k in safe && k in {CapacityMode, SolverMode} ==> n[k] == Lower(Strip(safe[k])))
      && (k in safe && k == ProbeUnique ==> n[k] == if Says(safe[k], YES) then "true" else "false")
      && (k in safe && (k in {ProxyMode, ProxyFailover} || k.Other?) ==> n[k] == safe[k])
      && (k !in safe ==> (k in n <==> k in c) && (k in c ==> n[k] == c[k]))
  {
    var c := Saved(RulesOf(f), map[], updates);
    SavedIsConsistent(f, updates);
    UpdateExact(RulesOf(f), safe, c);
    ProposedAt(f, c, safe, k);
    if k in safe {
      StoredSaysSent(f, k, safe[k]);
    }
  }

  /** The policy that was sent decides the switch; a switch sent alone decides the policy. */
  lemma AcceptedPolicy(f: Floats, updates: seq<Config>, safe: Config)
    requires Lawful(f) && Update(RulesOf(f), safe, Saved(RulesOf(f), map[], updates)).Ok?
    ensures var n := Update(RulesOf(f), safe, Saved(RulesOf(f), map[], updates)).value;
      && (RegisterPolicy in safe || RegisterUnique in safe ==> RegisterPolicy in n && RegisterUnique in n)
      && (RegisterPolicy in safe ==>
            (n[RegisterPolicy], n[RegisterUnique])
            == if Says(safe[RegisterPolicy], REQUIRED) then ("required", "true")
               else if Says(safe[RegisterPolicy], OFF) then ("off", "false") else ("auto", ""))
      && (RegisterPolicy !in safe && RegisterUnique in safe ==>
            (n[RegisterPolicy], n[RegisterUnique])
            == if Says(safe[RegisterUnique], YES) then ("required", "true") else ("off", "false"))
  {
    var r := RulesOf(f);
    SavedIsConsistent(f, updates);
    UpdateExact(r, safe, Saved(r, map[], updates));
    PolicyStored(f, safe);
  }

  lemma PolicyStored(f: Floats, safe: Config)
    requires Lawful(f) && FieldsValid(RulesOf(f), safe)
    ensures var b := NormalFields(RulesOf(f), safe);
      && (RegisterPolicy in safe ==>
            b[RegisterPolicy] == if Says(safe[RegisterPolicy], REQUIRED) then "required"
                                 else if Says(safe[RegisterPolicy], OFF) then "off" else "auto")
      && (RegisterUnique in safe ==> b[RegisterUnique] == if Says(safe[RegisterUnique], YES) then "true" else "false")
  {
    var r := RulesOf(f);
    if RegisterPolicy in safe {
      assert r.field(RegisterPolicy, safe[RegisterPolicy]).Some?;
      FieldTakenIff(f, RegisterPolicy, safe[RegisterPolicy]);
      StoredSaysSent(f, RegisterPolicy, safe[RegisterPolicy]);
    }
    if RegisterUnique in safe {
      StoredSaysSent(f, RegisterUnique, safe[RegisterUnique]);
    }
  }
}
