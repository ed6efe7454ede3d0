/** Saving settings: each partial update is normalised field by field and checked against the values it
    meets, stage by stage; together the stages keep the whole configuration consistent. */
module ConfigUpdate {
  import opened Common
  import opened ConfigStages
  import opened Text

  datatype Kind = Integer(lo: int, hi: Option<int>) | Number(top: real) | Flag | Policy | Choice(options: set<string>) | Free

  /** The ranges and choices of every checked setting. */
  function KindOf(k: Key): Kind {
    match k
    case ProtocolDefault => Integer(1, Some(3))
    case ProtocolMax => Integer(1, Some(3))
    case BrowserDefault => Integer(1, None)
    case BrowserMax => Integer(1, None)
    case RefreshAttempts => Integer(1, Some(12))
    case ProbeTimeout => Integer(2, Some(60))
    case ActiveTtl => Integer(900, Some(7200))
    case Cooldown => Integer(0, Some(7200))
    case RegisterUnique => Flag
    case RegisterPolicy => Policy
    case RegisterDelay => Number(3600.0)
    case RegisterDelayMax => Number(3600.0)
    case AuthBrowserMax => Integer(1, None)
    case RegistrationReserve => Integer(0, None)
    case RecheckReserve => Integer(0, None)
    case HoldSessions => Integer(1, Some(32))
    case PidBudget => Integer(0, Some(4096))
    case PidReserve => Integer(0, Some(4096))
    case HostMemoryReserve => Integer(0, Some(262144))
    case SolverMax => Integer(1, Some(15))
    case SolverWarm => Integer(0, Some(15))
    case SolverIdle => Integer(30, Some(86400))
    case TransitionTimeout => Integer(20, Some(120))
    case CpuPsi => Number(100.0)
    case LaunchInterval => Number(60.0)
    case CapacityMode => Choice({"adaptive", "fixed"})
    case SolverMode => Choice({"auto", "fixed"})
    case ProbeConcurrency => Integer(1, Some(10))
    case ProbeUnique => Flag
    case ProbeDelay => Number(3600.0)
    case ProbeDelayMax => Number(3600.0)
    case _ => Free
  }

  // ---------------------------------------------------------------- one field

  /** Reading text as a floating point number, and printing a number that was read. */
  datatype Num = Finite(v: real) | Infinite | Nan | Unreadable

  datatype Floats = Floats(read: string -> Num, show: real -> string)

  /** Printing a number that was read and reading it again gives the number; nothing is no number. */
  ghost predicate Lawful(f: Floats) {
    f.read("") == Unreadable && forall s :: f.read(s).Finite? ==> f.read(f.show(f.read(s).v)) == f.read(s)
  }

  predicate Whole(v: real) {
    v.Floor as real == v
  }

  /** A switch as the settings spell it; unknown spellings count as off. */
  predicate On(text: string) {
    Lower(Strip(text)) in {"1", "true", "yes", "on", "y", "是", "开启", "启用"}
  }

  function FlagText(b: bool): string {
    if b then "true" else "false"
  }

  function PolicyOf(t: string): Option<string> {
    if t in {"1", "true", "yes", "on", "required", "strict"} then Some("required")
    else if t in {"0", "false", "no", "off", "disabled"} then Some("off")
    else if t == "auto" then Some("auto")
    else None
  }

  function WholeField(f: Floats, lo: int, hi: Option<int>, raw: string): Option<string> {
    match f.read(raw)
    case Finite(v) =>
      if Whole(v) && lo as real <= v && (hi.None? || v <= hi.value as real) then Some(f.show(v)) else None
    case _ => None
  }

  function NumberField(f: Floats, top: real, raw: string): Option<string> {
    match f.read(raw)
    case Finite(v) => if 0.0 <= v <= top then Some(f.show(v)) else None
    case _ => None
  }

  /** The normal form of one setting, or nothing when it is refused. */
  function FieldOf(f: Floats, kind: Kind, raw: string): Option<string> {
    match kind
    case Integer(lo, hi) => WholeField(f, lo, hi, raw)
    case Number(top) => NumberField(f, top, raw)
    case Flag => Some(FlagText(On(raw)))
    case Policy => PolicyOf(Lower(Strip(raw)))
    case Choice(options) => if Lower(Strip(raw)) in options then Some(Lower(Strip(raw))) else None
    case Free => Some(raw)
  }

  // ---------------------------------------------------------------- checks over several settings

  function WholeOr(f: Floats, text: string, default: int): int {
    match f.read(text)
    case Finite(v) => if Whole(v) then v.Floor else default
    case _ => default
  }

  function DelayOr(f: Floats, text: string, default: real): real {
    match f.read(text)
    case Finite(v) => if v >= 0.0 then v else default
    case _ => default
  }

  predicate DefaultsWithinMax(f: Floats, c: Config) {
    && WholeOr(f, ValueOf(c, ProtocolDefault), 2) <= WholeOr(f, ValueOf(c, ProtocolMax), 3)
    && WholeOr(f, ValueOf(c, BrowserDefault), 2) <= WholeOr(f, ValueOf(c, BrowserMax), 2)
  }

  /** A maximum of zero means no upper delay. */
  predicate RegisterDelaysOrdered(f: Floats, c: Config) {
    var lo, hi := DelayOr(f, ValueOf(c, RegisterDelay), 15.0), DelayOr(f, ValueOf(c, RegisterDelayMax), 30.0);
    hi == 0.0 || lo <= hi
  }

  /** Truncation toward zero; an infinite value is not caught by the code. */
  function Truncated(f: Floats, text: string, default: int): Option<int> {
    match f.read(text)
    case Finite(v) => Some(if v >= 0.0 then v.Floor else -((-v).Floor))
    case Infinite => None
    case _ => Some(default)
  }

  function ReserveFault(f: Floats, c: Config): Option<Fault> {
    var total := Truncated(f, ValueOf(c, AuthBrowserMax), 6);
    var registration := Truncated(f, ValueOf(c, RegistrationReserve), 4);
    var recheck := Truncated(f, ValueOf(c, RecheckReserve), 2);
    if total.None? || registration.None? || recheck.None? then Some(Uncaught)
    else if registration.value + recheck.value > total.value then Some(ReservesExceedCap)
    else None
  }

  predicate Garbled(f: Floats, text: string) {
    text != "" && (f.read(text).Unreadable? || f.read(text).Nan?)
  }

  /** If either number cannot be read, both fall back to their defaults, which are in order. */
  function SolverFault(f: Floats, c: Config): Option<Fault> {
    var most, warm := ValueOf(c, SolverMax), ValueOf(c, SolverWarm);
    if Garbled(f, most) then None
    else if f.read(most).Infinite? then Some(Uncaught)
    else if Garbled(f, warm) then None
    else if f.read(warm).Infinite? then Some(Uncaught)
    else if Truncated(f, warm, 0).value > Truncated(f, most, 4).value then Some(WarmAboveMax)
    else None
  }

  predicate ProbeDelaysOrdered(f: Floats, c: Config) {
    DelayOr(f, ValueOf(c, ProbeDelay), 0.0) <= DelayOr(f, ValueOf(c, ProbeDelayMax), 0.0)
  }

  predicate ProxyCanDiffer(raw: string, failover: bool) {
    var mode := Lower(Strip(if raw == "" then "dynamic" else raw));
    && mode !in {"direct", "none", "no_proxy", "直连"}
    && (mode in {"specified", "manual", "explicit"} ==> failover)
  }

  /** A separate exit address needs a proxy, and with a named proxy also the right to switch. */
  predicate ExitCanDiffer(c: Config) {
    On(ValueOf(c, ProbeUnique)) ==> ProxyCanDiffer(ValueOf(c, ProxyMode), On(ValueOf(c, ProxyFailover)))
  }

  // ---------------------------------------------------------------- the repository's rules

  function RegisterFault(f: Floats, c: Config): Option<Fault> {
    if !DefaultsWithinMax(f, c) then Some(DefaultAboveMax)
    else if !RegisterDelaysOrdered(f, c) then Some(DelaysReversed)
    else None
  }

  function ProbeFault(f: Floats, c: Config): Option<Fault> {
    if !ProbeDelaysOrdered(f, c) then Some(DelaysReversed)
    else if !ExitCanDiffer(c) then Some(NoSeparateExit)
    else None
  }

  function RulesOf(f: Floats): Rules {
    Rules((k, raw) => FieldOf(f, KindOf(k), raw), c => RegisterFault(f, c), c => ReserveFault(f, c),
          c => SolverFault(f, c), c => ProbeFault(f, c))
  }

  lemma ChecksAreFramed(f: Floats)
    ensures ChecksFramed(RulesOf(f))
  {
    forall a: Config, b: Config | SameOn(a, b, RegisterMain, RegisterDelays) ensures RegisterFault(f, a) == RegisterFault(f, b) {
      RegisterFrame(f, a, b);
    }
    forall a: Config, b: Config | SameReserves(a, b) ensures ReserveFault(f, a) == ReserveFault(f, b) {
    }
    forall a: Config, b: Config | SameOn(a, b, RuntimeMain, RuntimeMain) ensures SolverFault(f, a) == SolverFault(f, b) {
      SolverFrame(f, a, b);
    }
    forall a: Config, b: Config | SameOn(a, b, Probe, Probe) ensures ProbeFault(f, a) == ProbeFault(f, b) {
      ProbeFrame(f, a, b);
    }
  }

  lemma RegisterFrame(f: Floats, a: Config, b: Config)
    requires SameOn(a, b, RegisterMain, RegisterDelays)
    ensures RegisterFault(f, a) == RegisterFault(f, b)
  {
    assert PartOf(ProtocolDefault) == PartOf(ProtocolMax) == PartOf(BrowserDefault) == PartOf(BrowserMax) == RegisterMain;
    assert PartOf(RegisterDelay) == PartOf(RegisterDelayMax) == RegisterDelays;
  }

  lemma SolverFrame(f: Floats, a: Config, b: Config)
    requires SameOn(a, b, RuntimeMain, RuntimeMain)
    ensures SolverFault(f, a) == SolverFault(f, b)
  {
    assert PartOf(SolverMax) == PartOf(SolverWarm) == RuntimeMain;
  }

  lemma ProbeFrame(f: Floats, a: Config, b: Config)
    requires SameOn(a, b, Probe, Probe)
    ensures ProbeFault(f, a) == ProbeFault(f, b)
  {
    assert PartOf(ProbeDelay) == PartOf(ProbeDelayMax) == Probe;
    assert PartOf(ProbeUnique) == PartOf(ProxyMode) == PartOf(ProxyFailover) == Probe;
  }

  // ---------------------------------------------------------------- normal forms are steady

  lemma FixedWord(w: string)
    requires Stripped(w) && forall i :: 0 <= i < |w| ==> 'a' <= w[i] <= 'z'
    ensures Lower(Strip(w)) == w
  {
    StripFixed(w);
    assert forall i :: 0 <= i < |w| ==> Lower(w)[i] == w[i];
  }

  lemma FlagsRead(b: bool)
    ensures On(FlagText(b)) <==> b
  {
    var w := FlagText(b);
    assert Stripped(w) && forall i :: 0 <= i < |w| ==> 'a' <= w[i] <= 'z';
    FixedWord(w);
  }

  lemma PolicyReads(w: string)
    requires PolicyWord(w)
    ensures PolicyOf(Lower(Strip(w))) == Some(w)
  {
    assert Stripped(w) && forall i :: 0 <= i < |w| ==> 'a' <= w[i] <= 'z';
    FixedWord(w);
  }

  lemma FieldSteady(f: Floats, kind: Kind, x: string)
    requires Lawful(f) && FieldOf(f, kind, x).Some?
    ensures FieldOf(f, kind, FieldOf(f, kind, x).value) == FieldOf(f, kind, x)
  {
    match kind
    case Integer(lo, hi) => assert f.read(f.show(f.read(x).v)) == f.read(x);
    case Number(top) => assert f.read(f.show(f.read(x).v)) == f.read(x);
    case Flag => FlagsRead(On(x));
    case Policy => PolicyReads(FieldOf(f, kind, x).value);
    case Choice(options) =>
      StripSpec(x);
      LowerSpec(Strip(x));
      StripFixed(Lower(Strip(x)));
    case Free =>
  }

  lemma SwitchField(f: Floats, x: string)
    ensures var y := FieldOf(f, KindOf(RegisterUnique), x); y == Some("true") || y == Some("false")
  {
  }

  lemma PolicyField(f: Floats, x: string)
    ensures var y := FieldOf(f, KindOf(RegisterPolicy), x); y.Some? ==> PolicyWord(y.value)
  {
  }

  lemma FormsAreSteady(f: Floats)
    requires Lawful(f)
    ensures FormsSteady(RulesOf(f))
  {
    var r := RulesOf(f);
    forall k: Key, x: string | r.field(k, x).Some? ensures r.field(k, r.field(k, x).value) == r.field(k, x) {
      FieldSteady(f, KindOf(k), x);
    }
  }

  lemma UncheckedAreTaken(f: Floats)
    ensures UncheckedTaken(RulesOf(f))
  {
    var r := RulesOf(f);
    forall k: Key, x: string | PartOf(k) == Unchecked ensures r.field(k, x) == Some(x) {
      assert KindOf(k) == Free;
    }
  }

  lemma SwitchWordsHold(f: Floats)
    ensures SwitchWords(RulesOf(f))
  {
    var r := RulesOf(f);
    forall x: string ensures r.field(RegisterUnique, x) == Some("true") || r.field(RegisterUnique, x) == Some("false") {
      SwitchField(f, x);
    }
  }

  lemma PolicyWordField(f: Floats, w: string)
    requires PolicyWord(w)
    ensures FieldOf(f, KindOf(RegisterPolicy), w) == Some(w)
  {
    PolicyReads(w);
  }

  lemma PolicyFormsHold(f: Floats)
    ensures PolicyForms(RulesOf(f))
  {
    var r := RulesOf(f);
    forall x: string | r.field(RegisterPolicy, x).Some? ensures PolicyWord(r.field(RegisterPolicy, x).value) {
      PolicyField(f, x);
    }
  }

  lemma PolicyWordsHold(f: Floats)
    ensures PolicyWords(RulesOf(f))
  {
    var r := RulesOf(f);
    forall w: string | PolicyWord(w) ensures r.field(RegisterPolicy, w) == Some(w) {
      PolicyWordField(f, w);
    }
  }

  lemma FieldsAreSteady(f: Floats)
    requires Lawful(f)
    ensures FieldsSteady(RulesOf(f))
  {
    FormsAreSteady(f);
    UncheckedAreTaken(f);
    SwitchWordsHold(f);
    PolicyFormsHold(f);
    PolicyWordsHold(f);
  }

  // ---------------------------------------------------------------- the results

  /** Before anything is saved every setting has its default, and those pass every check. */
  lemma DefaultsConsistent(f: Floats)
    requires Lawful(f)
    ensures Consistent(RulesOf(f), map[])
  {
  }

  /** After any updates, the next one is accepted exactly when every field it names is valid and the
      configuration it would give passes all checks together, and then saving it again in normal form
      changes nothing. */
  lemma AcceptedIff(f: Floats, updates: seq<Config>, safe: Config)
    requires Lawful(f)
    ensures var r := RulesOf(f);
            var c := Saved(r, map[], updates);
            var u := Update(r, safe, c);
      && (u.Ok? <==> FieldsValid(r, safe) && ChecksPass(r, c + NormalForm(r, safe)))
      && (u.Ok? ==> u.value == NormalForm(r, safe) && Update(r, u.value, c + u.value) == u)
  {
    var r := RulesOf(f);
    DefaultsConsistent(f);
    FieldsAreSteady(f);
    ChecksAreFramed(f);
    RunsStayConsistent(r, map[], updates);
    var c := Saved(r, map[], updates);
    UpdateExact(r, safe, c);
    if Update(r, safe, c).Ok? { UpdateIdempotent(r, safe, c); }
  }

  /** The stored settings. */
  class ConfigStore {
    var values: Config

    constructor ()
      ensures values == map[]
    {
      values := map[];
    }

    /** Save an update, or refuse it and leave everything as it was. */
    method Put(f: Floats, update: Config) returns (saved: Result<Config, Fault>)
      modifies this
      ensures saved == Update(RulesOf(f), update, old(values))
      ensures values == Saved(RulesOf(f), old(values), [update])
    {
      var r := RulesOf(f);
      saved := NormalizeUpdate(r, update, values);
      if saved.Ok? {
        values := values + saved.value;
      }
    }
  }
}
