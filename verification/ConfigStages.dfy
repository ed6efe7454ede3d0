/** Saving settings, the frame: an update runs through three stages, each of which normalises the
    settings it knows and checks them together with the stored ones, but only when the update touches
    it. The rules themselves are a parameter here; module ConfigUpdate gives the repository's. */
module ConfigStages {
  import opened Common

  datatype Key =
    | ProtocolDefault | ProtocolMax | BrowserDefault | BrowserMax
    | RefreshAttempts | ProbeTimeout | ActiveTtl | Cooldown
    | RegisterUnique | RegisterPolicy | RegisterDelay | RegisterDelayMax
    | AuthBrowserMax | RegistrationReserve | RecheckReserve | HoldSessions | PidBudget | PidReserve
    | HostMemoryReserve | SolverMax | SolverWarm | SolverIdle | TransitionTimeout
    | CpuPsi | LaunchInterval | CapacityMode | SolverMode
    | ProbeConcurrency | ProbeUnique | ProbeDelay | ProbeDelayMax | ProxyMode | ProxyFailover
    | Other(name: string)

  /** The loops of the three normalisers, in the order in which they run. */
  datatype Part = RegisterMain | RegisterDelays | RuntimeMain | RuntimeNumbers | Probe | Unchecked

  function PartOf(k: Key): Part {
    match k
    case ProtocolDefault | ProtocolMax | BrowserDefault | BrowserMax | RefreshAttempts | ProbeTimeout
       | ActiveTtl | Cooldown | RegisterUnique | RegisterPolicy => RegisterMain
    case RegisterDelay | RegisterDelayMax => RegisterDelays
    case AuthBrowserMax | RegistrationReserve | RecheckReserve | HoldSessions | PidBudget | PidReserve
       | HostMemoryReserve | SolverMax | SolverWarm | SolverIdle | TransitionTimeout | CapacityMode | SolverMode => RuntimeMain
    case CpuPsi | LaunchInterval => RuntimeNumbers
    case ProbeConcurrency | ProbeUnique | ProbeDelay | ProbeDelayMax | ProxyMode | ProxyFailover => Probe
    case Other(_) => Unchecked
  }

  type Config = map<Key, string>

  datatype Fault = BadField | DefaultAboveMax | DelaysReversed | ReservesExceedCap | WarmAboveMax | NoSeparateExit | Uncaught

  /** Per field: the normal form, or nothing when it is refused. Per group of settings: what is wrong
      with their values in a whole configuration, if anything. */
  datatype Rules = Rules(
    field: (Key, string) -> Option<string>,
    registerFault: Config -> Option<Fault>,
    reserveFault: Config -> Option<Fault>,
    solverFault: Config -> Option<Fault>,
    probeFault: Config -> Option<Fault>)

  function ValueOf(c: Config, k: Key): string {
    if k in c then c[k] else ""
  }

  // ---------------------------------------------------------------- the stages

  predicate PartValid(r: Rules, safe: Config, part: Part) {
    forall k :: k in safe && PartOf(k) == part ==> r.field(k, safe[k]).Some?
  }

  /** What one loop over a key table leaves: every listed key that is present, in normal form. */
  function Normal(r: Rules, safe: Config, part: Part): (c: Config)
    requires PartValid(r, safe, part)
    ensures c.Keys == safe.Keys
  {
    map k | k in safe :: if PartOf(k) == part then r.field(k, safe[k]).value else safe[k]
  }

  predicate Touches(safe: Config, one: Part, two: Part) {
    exists k :: k in safe && (PartOf(k) == one || PartOf(k) == two)
  }

  /** The three-state policy decides the old switch; a switch sent alone decides the policy. */
  function Coherent(c: Config): Config {
    if RegisterPolicy in c then
      c[RegisterUnique := if c[RegisterPolicy] == "auto" then "" else if c[RegisterPolicy] == "required" then "true" else "false"]
    else if RegisterUnique in c then c[RegisterPolicy := if c[RegisterUnique] == "true" then "required" else "off"]
    else c
  }

  function RegisterControl(r: Rules, safe: Config, current: Config): Result<Config, Fault> {
    if !Touches(safe, RegisterMain, RegisterDelays) then Ok(safe)
    else if !PartValid(r, safe, RegisterMain) then Err(BadField)
    else
      var one := Coherent(Normal(r, safe, RegisterMain));
      if !PartValid(r, one, RegisterDelays) then Err(BadField)
      else
        var two := Normal(r, one, RegisterDelays);
        match r.registerFault(current + two)
        case Some(e) => Err(e)
        case None => Ok(two)
  }

  predicate TouchesReserves(c: Config) {
    AuthBrowserMax in c || RegistrationReserve in c || RecheckReserve in c
  }

  function RuntimeCapacity(r: Rules, safe: Config, current: Config): Result<Config, Fault> {
    if !Touches(safe, RuntimeMain, RuntimeNumbers) then Ok(safe)
    else if !PartValid(r, safe, RuntimeMain) then Err(BadField)
    else
      var one := Normal(r, safe, RuntimeMain);
      if TouchesReserves(one) && r.reserveFault(current + one).Some? then Err(r.reserveFault(current + one).value)
      else if !PartValid(r, one, RuntimeNumbers) then Err(BadField)
      else
        var two := Normal(r, one, RuntimeNumbers);
        match r.solverFault(current + two)
        case Some(e) => Err(e)
        case None => Ok(two)
  }

  function LocalStatusProbe(r: Rules, safe: Config, current: Config): Result<Config, Fault> {
    if !Touches(safe, Probe, Probe) then Ok(safe)
    else if !PartValid(r, safe, Probe) then Err(BadField)
    else
      var one := Normal(r, safe, Probe);
      match r.probeFault(current + one)
      case Some(e) => Err(e)
      case None => Ok(one)
  }

  /** The three stages in the order in which an update runs through them. */
  function Update(r: Rules, safe: Config, current: Config): Result<Config, Fault> {
    match RegisterControl(r, safe, current)
    case Err(e) => Err(e)
    case Ok(one) =>
      match RuntimeCapacity(r, one, current)
      case Err(e) => Err(e)
      case Ok(two) => LocalStatusProbe(r, two, current)
  }

  // ---------------------------------------------------------------- the whole configuration

  /** The switch says what the policy says. */
  predicate PolicyAgrees(c: Config) {
    && (RegisterPolicy in c <==> RegisterUnique in c)
    && (RegisterPolicy in c ==>
          || (c[RegisterPolicy] == "auto" && c[RegisterUnique] == "")
          || (c[RegisterPolicy] == "required" && c[RegisterUnique] == "true")
          || (c[RegisterPolicy] == "off" && c[RegisterUnique] == "false"))
  }

  /** All checks at once, none of them restricted to the settings just sent. */
  predicate ChecksPass(r: Rules, c: Config) {
    r.registerFault(c).None? && r.reserveFault(c).None? && r.solverFault(c).None? && r.probeFault(c).None?
  }

  predicate FieldsValid(r: Rules, c: Config) {
    forall k :: k in c ==> r.field(k, c[k]).Some?
  }

  /** Every stored setting is its own normal form; the switch follows the policy instead. */
  predicate FieldsNormal(r: Rules, c: Config) {
    forall k :: k in c && k != RegisterUnique ==> r.field(k, c[k]) == Some(c[k])
  }

  predicate Consistent(r: Rules, c: Config) {
    FieldsNormal(r, c) && PolicyAgrees(c) && ChecksPass(r, c)
  }

  /** The normal form of an update: every field by itself, then policy and switch made to agree. */
  function NormalForm(r: Rules, safe: Config): Config {
    Coherent(NormalFields(r, safe))
  }

  function NormalFields(r: Rules, safe: Config): (c: Config)
    ensures c.Keys == safe.Keys
  {
    map k | k in safe :: if r.field(k, safe[k]).Some? then r.field(k, safe[k]).value else safe[k]
  }

  // ---------------------------------------------------------------- what the rules must satisfy

  ghost predicate SameOn(a: Config, b: Config, one: Part, two: Part) {
    forall k :: PartOf(k) == one || PartOf(k) == two ==> ValueOf(a, k) == ValueOf(b, k)
  }

  ghost predicate SameReserves(a: Config, b: Config) {
    && ValueOf(a, AuthBrowserMax) == ValueOf(b, AuthBrowserMax)
    && ValueOf(a, RegistrationReserve) == ValueOf(b, RegistrationReserve)
    && ValueOf(a, RecheckReserve) == ValueOf(b, RecheckReserve)
  }

  /** Normal forms are their own normal forms. */
  ghost predicate FormsSteady(r: Rules) {
    forall k, x :: r.field(k, x).Some? ==> r.field(k, r.field(k, x).value) == r.field(k, x)
  }

  /** Keys that no stage knows are taken as they are. */
  ghost predicate UncheckedTaken(r: Rules) {
    forall k, x :: PartOf(k) == Unchecked ==> r.field(k, x) == Some(x)
  }

  /** The normal forms of the switch. */
  ghost predicate SwitchWords(r: Rules) {
    forall x :: r.field(RegisterUnique, x) == Some("true") || r.field(RegisterUnique, x) == Some("false")
  }

  predicate PolicyWord(w: string) {
    w == "auto" || w == "required" || w == "off"
  }

  /** The normal forms of the policy. */
  ghost predicate PolicyForms(r: Rules) {
    forall x :: r.field(RegisterPolicy, x).Some? ==> PolicyWord(r.field(RegisterPolicy, x).value)
  }

  ghost predicate PolicyWords(r: Rules) {
    forall w :: PolicyWord(w) ==> r.field(RegisterPolicy, w) == Some(w)
  }

  ghost predicate FieldsSteady(r: Rules) {
    FormsSteady(r) && UncheckedTaken(r) && SwitchWords(r) && PolicyForms(r) && PolicyWords(r)
  }

  /** Each check reads only the settings of its own stage. */
  ghost predicate ChecksFramed(r: Rules) {
    && (forall a, b :: SameOn(a, b, RegisterMain, RegisterDelays) ==> r.registerFault(a) == r.registerFault(b))
    && (forall a, b :: SameReserves(a, b) ==> r.reserveFault(a) == r.reserveFault(b))
    && (forall a, b :: SameOn(a, b, RuntimeMain, RuntimeMain) ==> r.solverFault(a) == r.solverFault(b))
    && (forall a, b :: SameOn(a, b, Probe, Probe) ==> r.probeFault(a) == r.probeFault(b))
  }

  // ---------------------------------------------------------------- each stage, exactly

  /** The fields of two parts in normal form, the rest as sent. */
  function NormalOn(r: Rules, safe: Config, one: Part, two: Part): (c: Config)
    ensures c.Keys == safe.Keys
  {
    map k | k in safe ::
      if (PartOf(k) == one || PartOf(k) == two) && r.field(k, safe[k]).Some? then r.field(k, safe[k]).value else safe[k]
  }

  lemma LoopAt(r: Rules, safe: Config, p: Part, k: Key)
    requires PartValid(r, safe, p) && k in safe
    ensures k in Normal(r, safe, p)
    ensures PartOf(k) == p ==> r.field(k, safe[k]) == Some(Normal(r, safe, p)[k])
    ensures PartOf(k) != p ==> Normal(r, safe, p)[k] == safe[k]
  {
  }

  lemma SecondLoopValid(r: Rules, safe: Config, p: Part, q: Part)
    requires p != q && PartValid(r, safe, p)
    ensures PartValid(r, Normal(r, safe, p), q) <==> PartValid(r, safe, q)
  {
    forall k | k in safe && PartOf(k) == q ensures Normal(r, safe, p)[k] == safe[k] {
      LoopAt(r, safe, p, k);
    }
  }

  /** Two loops in a row over different parts. */
  lemma TwoLoops(r: Rules, safe: Config, p: Part, q: Part)
    requires p != q && PartValid(r, safe, p) && PartValid(r, safe, q)
    requires PartValid(r, Normal(r, safe, p), q)
    ensures Normal(r, Normal(r, safe, p), q) == NormalOn(r, safe, p, q)
  {
    var one := Normal(r, safe, p);
    forall k | k in safe ensures Normal(r, one, q)[k] == NormalOn(r, safe, p, q)[k] {
      LoopAt(r, safe, p, k);
      LoopAt(r, one, q, k);
    }
  }

  /** Making policy and switch agree touches no delay. */
  lemma CoherentCommutes(r: Rules, base: Config)
    ensures PartValid(r, Coherent(base), RegisterDelays) <==> PartValid(r, base, RegisterDelays)
    ensures PartValid(r, base, RegisterDelays) ==>
              Normal(r, Coherent(base), RegisterDelays) == Coherent(Normal(r, base, RegisterDelays))
  {
    var one := Coherent(base);
    assert PartOf(RegisterPolicy) == RegisterMain && PartOf(RegisterUnique) == RegisterMain;
    assert forall k :: k != RegisterPolicy && k != RegisterUnique ==> (k in one <==> k in base) && (k in base ==> one[k] == base[k]);
    if PartValid(r, base, RegisterDelays) {
      var left, right := Normal(r, one, RegisterDelays), Coherent(Normal(r, base, RegisterDelays));
      assert left.Keys == right.Keys;
      forall k | k in left ensures left[k] == right[k] {
      }
    }
  }

  lemma RegisterPartsAgree(r: Rules, safe: Config)
    requires PartValid(r, safe, RegisterMain)
    ensures var one := Coherent(Normal(r, safe, RegisterMain));
            && (PartValid(r, one, RegisterDelays) <==> PartValid(r, safe, RegisterDelays))
            && (PartValid(r, one, RegisterDelays) ==>
                  Normal(r, one, RegisterDelays) == Coherent(NormalOn(r, safe, RegisterMain, RegisterDelays)))
  {
    SecondLoopValid(r, safe, RegisterMain, RegisterDelays);
    if PartValid(r, safe, RegisterDelays) { TwoLoops(r, safe, RegisterMain, RegisterDelays); }
    CoherentCommutes(r, Normal(r, safe, RegisterMain));
  }

  lemma RegisterExact(r: Rules, safe: Config, current: Config)
    requires ChecksFramed(r) && ChecksPass(r, current)
    ensures var u := RegisterControl(r, safe, current);
            var n := Coherent(NormalOn(r, safe, RegisterMain, RegisterDelays));
            && (u.Ok? <==> && PartValid(r, safe, RegisterMain) && PartValid(r, safe, RegisterDelays)
                           && r.registerFault(current + n).None?)
            && (u.Ok? ==> u.value == n)
  {
    if Touches(safe, RegisterMain, RegisterDelays) {
      if PartValid(r, safe, RegisterMain) { RegisterPartsAgree(r, safe); }
    } else {
      var n := NormalOn(r, safe, RegisterMain, RegisterDelays);
      assert n == safe;
      assert PartOf(RegisterPolicy) == RegisterMain && PartOf(RegisterUnique) == RegisterMain;
      assert SameOn(current, current + safe, RegisterMain, RegisterDelays);
    }
  }

  lemma ReservesAgree(one: Config, n: Config, current: Config)
    requires one.Keys == n.Keys && forall k :: k in one && PartOf(k) == RuntimeMain ==> one[k] == n[k]
    ensures SameReserves(current + one, current + n)
    ensures !TouchesReserves(one) ==> SameReserves(current, current + one)
  {
    assert PartOf(AuthBrowserMax) == PartOf(RegistrationReserve) == PartOf(RecheckReserve) == RuntimeMain;
  }

  lemma RuntimeExact(r: Rules, safe: Config, current: Config)
    requires ChecksFramed(r) && ChecksPass(r, current)
    ensures var u := RuntimeCapacity(r, safe, current);
            var n := NormalOn(r, safe, RuntimeMain, RuntimeNumbers);
            && (u.Ok? <==> && PartValid(r, safe, RuntimeMain) && PartValid(r, safe, RuntimeNumbers)
                           && r.reserveFault(current + n).None? && r.solverFault(current + n).None?)
            && (u.Ok? ==> u.value == n)
  {
    var n := NormalOn(r, safe, RuntimeMain, RuntimeNumbers);
    if Touches(safe, RuntimeMain, RuntimeNumbers) {
      if PartValid(r, safe, RuntimeMain) {
        var one := Normal(r, safe, RuntimeMain);
        SecondLoopValid(r, safe, RuntimeMain, RuntimeNumbers);
        if PartValid(r, safe, RuntimeNumbers) { TwoLoops(r, safe, RuntimeMain, RuntimeNumbers); }
        ReservesAgree(one, n, current);
        assert forall k :: k in safe && PartOf(k) == RuntimeMain ==> one[k] == n[k];
      }
    } else {
      assert n == safe;
      assert SameOn(current, current + safe, RuntimeMain, RuntimeMain);
      assert PartOf(AuthBrowserMax) == PartOf(RegistrationReserve) == PartOf(RecheckReserve) == RuntimeMain;
      assert SameReserves(current, current + safe);
    }
  }

  lemma ProbeExact(r: Rules, safe: Config, current: Config)
    requires ChecksFramed(r) && ChecksPass(r, current)
    ensures var u := LocalStatusProbe(r, safe, current);
            var n := NormalOn(r, safe, Probe, Probe);
            && (u.Ok? <==> PartValid(r, safe, Probe) && r.probeFault(current + n).None?)
            && (u.Ok? ==> u.value == n)
  {
    var n := NormalOn(r, safe, Probe, Probe);
    if Touches(safe, Probe, Probe) {
      if PartValid(r, safe, Probe) { assert Normal(r, safe, Probe) == n; }
    } else {
      assert n == safe;
      assert SameOn(current, current + safe, Probe, Probe);
    }
  }

  // ---------------------------------------------------------------- the stages together

  predicate Linked(k: Key) {
    k == RegisterPolicy || k == RegisterUnique
  }

  lemma CoherentAt(c: Config, k: Key)
    ensures !Linked(k) ==> (k in Coherent(c) <==> k in c) && (k in c ==> Coherent(c)[k] == c[k])
  {
  }

  /** Policy and switch after agreement depend only on the two of them before. */
  lemma CoherentDepends(a: Config, b: Config, k: Key)
    requires Linked(k) && a.Keys == b.Keys
    requires RegisterPolicy in a ==> a[RegisterPolicy] == b[RegisterPolicy]
    requires RegisterUnique in a ==> a[RegisterUnique] == b[RegisterUnique]
    ensures (k in Coherent(a) <==> k in Coherent(b)) && (k in Coherent(a) ==> Coherent(a)[k] == Coherent(b)[k])
  {
  }

  lemma OnAt(r: Rules, c: Config, p: Part, q: Part, k: Key)
    requires k in c
    ensures (PartOf(k) == p || PartOf(k) == q) && r.field(k, c[k]).Some? ==> r.field(k, c[k]) == Some(NormalOn(r, c, p, q)[k])
    ensures PartOf(k) != p && PartOf(k) != q ==> NormalOn(r, c, p, q)[k] == c[k]
  {
  }

  /** The configuration after all three stages, when every field is valid. */
  function ThreeStages(r: Rules, safe: Config): Config {
    NormalOn(r, NormalOn(r, Coherent(NormalOn(r, safe, RegisterMain, RegisterDelays)), RuntimeMain, RuntimeNumbers), Probe, Probe)
  }

  lemma LinkedParts(k: Key)
    requires Linked(k)
    ensures PartOf(k) == RegisterMain
  {
  }

  lemma LinkedStagesCompose(r: Rules, safe: Config, k: Key)
    requires Linked(k)
    ensures k in ThreeStages(r, safe) <==> k in NormalForm(r, safe)
    ensures k in NormalForm(r, safe) ==> ThreeStages(r, safe)[k] == NormalForm(r, safe)[k]
  {
    var a, b := NormalOn(r, safe, RegisterMain, RegisterDelays), NormalFields(r, safe);
    var one := Coherent(a);
    LinkedParts(RegisterPolicy);
    LinkedParts(RegisterUnique);
    CoherentDepends(a, b, k);
    if k in one {
      OnAt(r, one, RuntimeMain, RuntimeNumbers, k);
      OnAt(r, NormalOn(r, one, RuntimeMain, RuntimeNumbers), Probe, Probe, k);
    }
  }

  lemma OtherStagesCompose(r: Rules, safe: Config, k: Key)
    requires FieldsValid(r, safe) && UncheckedTaken(r) && !Linked(k)
    ensures k in ThreeStages(r, safe) <==> k in NormalForm(r, safe)
    ensures k in NormalForm(r, safe) ==> ThreeStages(r, safe)[k] == NormalForm(r, safe)[k]
  {
    var a := NormalOn(r, safe, RegisterMain, RegisterDelays);
    var one := Coherent(a);
    CoherentAt(a, k);
    CoherentAt(NormalFields(r, safe), k);
    if k in safe {
      OnAt(r, safe, RegisterMain, RegisterDelays, k);
      OnAt(r, one, RuntimeMain, RuntimeNumbers, k);
      OnAt(r, NormalOn(r, one, RuntimeMain, RuntimeNumbers), Probe, Probe, k);
    }
  }

  lemma StagesCompose(r: Rules, safe: Config)
    requires FieldsValid(r, safe) && FieldsSteady(r)
    ensures ThreeStages(r, safe) == NormalForm(r, safe)
  {
    forall k: Key
      ensures k in ThreeStages(r, safe) <==> k in NormalForm(r, safe)
      ensures k in NormalForm(r, safe) ==> ThreeStages(r, safe)[k] == NormalForm(r, safe)[k]
    {
      if Linked(k) { LinkedStagesCompose(r, safe, k); } else { OtherStagesCompose(r, safe, k); }
    }
  }

  /** A later stage finds its own fields as they were sent. */
  lemma LaterPartsUntouched(r: Rules, safe: Config, part: Part)
    requires part != RegisterMain && part != RegisterDelays
    ensures PartValid(r, Coherent(NormalOn(r, safe, RegisterMain, RegisterDelays)), part) <==> PartValid(r, safe, part)
  {
    var a := NormalOn(r, safe, RegisterMain, RegisterDelays);
    forall k: Key | PartOf(k) == part
      ensures (k in Coherent(a) <==> k in safe) && (k in safe ==> Coherent(a)[k] == safe[k])
    {
      LinkedParts(RegisterPolicy);
      LinkedParts(RegisterUnique);
      CoherentAt(a, k);
      if k in safe { OnAt(r, safe, RegisterMain, RegisterDelays, k); }
    }
  }

  lemma ProbePartUntouched(r: Rules, one: Config)
    ensures PartValid(r, NormalOn(r, one, RuntimeMain, RuntimeNumbers), Probe) <==> PartValid(r, one, Probe)
  {
    forall k | k in one && PartOf(k) == Probe ensures NormalOn(r, one, RuntimeMain, RuntimeNumbers)[k] == one[k] {
      OnAt(r, one, RuntimeMain, RuntimeNumbers, k);
    }
  }

  /** A stage leaves the settings of other stages alone, so a check may be read off the final result. */
  lemma SameAfter(r: Rules, c: Config, current: Config, p: Part, q: Part, one: Part, two: Part)
    requires one != p && one != q && two != p && two != q
    ensures SameOn(current + c, current + NormalOn(r, c, p, q), one, two)
  {
    forall k | PartOf(k) == one || PartOf(k) == two
      ensures ValueOf(current + c, k) == ValueOf(current + NormalOn(r, c, p, q), k)
    {
      if k in c { OnAt(r, c, p, q, k); }
    }
  }

  lemma ReservesFollow(a: Config, b: Config)
    requires SameOn(a, b, RuntimeMain, RuntimeMain)
    ensures SameReserves(a, b)
  {
    assert PartOf(AuthBrowserMax) == PartOf(RegistrationReserve) == PartOf(RecheckReserve) == RuntimeMain;
  }

  lemma AllParts(r: Rules, safe: Config)
    requires FieldsSteady(r)
    ensures FieldsValid(r, safe) <==>
      PartValid(r, safe, RegisterMain) && PartValid(r, safe, RegisterDelays) && PartValid(r, safe, RuntimeMain)
      && PartValid(r, safe, RuntimeNumbers) && PartValid(r, safe, Probe)
  {
  }

  lemma ChecksReadOffTheEnd(r: Rules, one: Config, current: Config)
    requires ChecksFramed(r)
    ensures var two := NormalOn(r, one, RuntimeMain, RuntimeNumbers);
            var three := NormalOn(r, two, Probe, Probe);
            && r.registerFault(current + one) == r.registerFault(current + three)
            && r.reserveFault(current + two) == r.reserveFault(current + three)
            && r.solverFault(current + two) == r.solverFault(current + three)
  {
    var two := NormalOn(r, one, RuntimeMain, RuntimeNumbers);
    var three := NormalOn(r, two, Probe, Probe);
    SameAfter(r, one, current, RuntimeMain, RuntimeNumbers, RegisterMain, RegisterDelays);
    SameAfter(r, two, current, Probe, Probe, RegisterMain, RegisterDelays);
    SameAfter(r, two, current, Probe, Probe, RuntimeMain, RuntimeMain);
    ReservesFollow(current + two, current + three);
  }

  lemma PartsAlongTheStages(r: Rules, safe: Config)
    requires FieldsSteady(r)
    ensures var one := Coherent(NormalOn(r, safe, RegisterMain, RegisterDelays));
            var two := NormalOn(r, one, RuntimeMain, RuntimeNumbers);
            FieldsValid(r, safe) <==>
              PartValid(r, safe, RegisterMain) && PartValid(r, safe, RegisterDelays) && PartValid(r, one, RuntimeMain)
              && PartValid(r, one, RuntimeNumbers) && PartValid(r, two, Probe)
  {
    AllParts(r, safe);
    LaterPartsUntouched(r, safe, RuntimeMain);
    LaterPartsUntouched(r, safe, RuntimeNumbers);
    LaterPartsUntouched(r, safe, Probe);
    ProbePartUntouched(r, Coherent(NormalOn(r, safe, RegisterMain, RegisterDelays)));
  }

  lemma UpdateUnfolds(r: Rules, safe: Config, current: Config)
    requires ChecksFramed(r) && ChecksPass(r, current)
    ensures var one := Coherent(NormalOn(r, safe, RegisterMain, RegisterDelays));
            var two := NormalOn(r, one, RuntimeMain, RuntimeNumbers);
            var three := NormalOn(r, two, Probe, Probe);
            && (Update(r, safe, current).Ok? <==>
                  && PartValid(r, safe, RegisterMain) && PartValid(r, safe, RegisterDelays) && PartValid(r, one, RuntimeMain)
                  && PartValid(r, one, RuntimeNumbers) && PartValid(r, two, Probe)
                  && r.registerFault(current + one).None? && r.reserveFault(current + two).None?
                  && r.solverFault(current + two).None? && r.probeFault(current + three).None?)
            && (Update(r, safe, current).Ok? ==> Update(r, safe, current).value == three)
  {
    var one := Coherent(NormalOn(r, safe, RegisterMain, RegisterDelays));
    RegisterExact(r, safe, current);
    RuntimeExact(r, one, current);
    ProbeExact(r, NormalOn(r, one, RuntimeMain, RuntimeNumbers), current);
  }

  /** On a configuration that passes the checks, the staged, partial checks decide exactly what one
      global check would: an update is accepted if and only if each of its fields is valid and the
      configuration that results passes every check; what is saved is the normal form of the update. */
  lemma UpdateExact(r: Rules, safe: Config, current: Config)
    requires FieldsSteady(r) && ChecksFramed(r) && ChecksPass(r, current)
    ensures var u := Update(r, safe, current);
            && (u.Ok? <==> FieldsValid(r, safe) && ChecksPass(r, current + NormalForm(r, safe)))
            && (u.Ok? ==> u.value == NormalForm(r, safe))
  {
    UpdateUnfolds(r, safe, current);
    PartsAlongTheStages(r, safe);
    ChecksReadOffTheEnd(r, Coherent(NormalOn(r, safe, RegisterMain, RegisterDelays)), current);
    if FieldsValid(r, safe) { StagesCompose(r, safe); }
  }

  // ---------------------------------------------------------------- which refusal

  /** The first fault a whole configuration has, in the order of the stages. */
  function FirstFault(r: Rules, c: Config): Option<Fault> {
    if r.registerFault(c).Some? then r.registerFault(c)
    else if r.reserveFault(c).Some? then r.reserveFault(c)
    else if r.solverFault(c).Some? then r.solverFault(c)
    else r.probeFault(c)
  }

  function OkUnless(fault: Option<Fault>, c: Config): Result<Config, Fault> {
    if fault.Some? then Err(fault.value) else Ok(c)
  }

  lemma RegisterRefusal(r: Rules, safe: Config, current: Config)
    requires ChecksFramed(r) && ChecksPass(r, current) && PartValid(r, safe, RegisterMain) && PartValid(r, safe, RegisterDelays)
    ensures var n := Coherent(NormalOn(r, safe, RegisterMain, RegisterDelays));
            RegisterControl(r, safe, current) == OkUnless(r.registerFault(current + n), n)
  {
    RegisterExact(r, safe, current);
    RegisterPartsAgree(r, safe);
  }

  lemma RuntimeRefusal(r: Rules, safe: Config, current: Config)
    requires ChecksFramed(r) && ChecksPass(r, current) && PartValid(r, safe, RuntimeMain) && PartValid(r, safe, RuntimeNumbers)
    ensures var n := NormalOn(r, safe, RuntimeMain, RuntimeNumbers);
            RuntimeCapacity(r, safe, current)
            == if r.reserveFault(current + n).Some? then Err(r.reserveFault(current + n).value)
               else OkUnless(r.solverFault(current + n), n)
  {
    var n := NormalOn(r, safe, RuntimeMain, RuntimeNumbers);
    RuntimeExact(r, safe, current);
    if Touches(safe, RuntimeMain, RuntimeNumbers) {
      var one := Normal(r, safe, RuntimeMain);
      SecondLoopValid(r, safe, RuntimeMain, RuntimeNumbers);
      TwoLoops(r, safe, RuntimeMain, RuntimeNumbers);
      forall k | k in one && PartOf(k) == RuntimeMain ensures one[k] == n[k] {
        LoopAt(r, safe, RuntimeMain, k);
        OnAt(r, safe, RuntimeMain, RuntimeNumbers, k);
      }
      ReservesAgree(one, n, current);
    }
  }

  lemma ProbeRefusal(r: Rules, safe: Config, current: Config)
    requires ChecksFramed(r) && ChecksPass(r, current) && PartValid(r, safe, Probe)
    ensures var n := NormalOn(r, safe, Probe, Probe);
            LocalStatusProbe(r, safe, current) == OkUnless(r.probeFault(current + n), n)
  {
    ProbeExact(r, safe, current);
    if Touches(safe, Probe, Probe) { assert Normal(r, safe, Probe) == NormalOn(r, safe, Probe, Probe); }
  }

  /** An update whose fields are valid is refused for the first fault of the configuration it would give. */
  lemma RefusalExact(r: Rules, safe: Config, current: Config)
    requires FieldsSteady(r) && ChecksFramed(r) && ChecksPass(r, current) && FieldsValid(r, safe)
    ensures Update(r, safe, current) == OkUnless(FirstFault(r, current + NormalForm(r, safe)), NormalForm(r, safe))
  {
    var one := Coherent(NormalOn(r, safe, RegisterMain, RegisterDelays));
    var two := NormalOn(r, one, RuntimeMain, RuntimeNumbers);
    PartsAlongTheStages(r, safe);
    RegisterRefusal(r, safe, current);
    RuntimeRefusal(r, one, current);
    ProbeRefusal(r, two, current);
    ChecksReadOffTheEnd(r, one, current);
    StagesCompose(r, safe);
  }

  lemma RegisterBadField(r: Rules, safe: Config, current: Config)
    requires !PartValid(r, safe, RegisterMain) || !PartValid(r, safe, RegisterDelays)
    ensures RegisterControl(r, safe, current) == Err(BadField)
  {
    if PartValid(r, safe, RegisterMain) { RegisterPartsAgree(r, safe); }
  }

  lemma RuntimeBadField(r: Rules, safe: Config, current: Config)
    requires ChecksFramed(r) && ChecksPass(r, current)
    requires !PartValid(r, safe, RuntimeMain) || !PartValid(r, safe, RuntimeNumbers)
    requires r.reserveFault(current + NormalOn(r, safe, RuntimeMain, RuntimeNumbers)).None?
    ensures RuntimeCapacity(r, safe, current) == Err(BadField)
  {
    if PartValid(r, safe, RuntimeMain) {
      var one, n := Normal(r, safe, RuntimeMain), NormalOn(r, safe, RuntimeMain, RuntimeNumbers);
      SecondLoopValid(r, safe, RuntimeMain, RuntimeNumbers);
      forall k | k in one && PartOf(k) == RuntimeMain ensures one[k] == n[k] {
        LoopAt(r, safe, RuntimeMain, k);
        OnAt(r, safe, RuntimeMain, RuntimeNumbers, k);
      }
      ReservesAgree(one, n, current);
    }
  }

  /** An update with a field that is not valid is refused for that field, unless a check of a stage before
      it objects first: with an invalid registration setting always, with an invalid capacity setting when
      the registration and reserve checks pass, with an invalid probe setting when all before it pass. */
  lemma BadFieldRefused(r: Rules, safe: Config, current: Config)
    requires FieldsSteady(r) && ChecksFramed(r) && ChecksPass(r, current) && !FieldsValid(r, safe)
    requires var one := Coherent(NormalOn(r, safe, RegisterMain, RegisterDelays));
             var two := NormalOn(r, one, RuntimeMain, RuntimeNumbers);
             PartValid(r, safe, RegisterMain) && PartValid(r, safe, RegisterDelays) ==>
               && r.registerFault(current + one).None? && r.reserveFault(current + two).None?
               && (PartValid(r, one, RuntimeMain) && PartValid(r, one, RuntimeNumbers) ==> r.solverFault(current + two).None?)
    ensures Update(r, safe, current) == Err(BadField)
  {
    var one := Coherent(NormalOn(r, safe, RegisterMain, RegisterDelays));
    PartsAlongTheStages(r, safe);
    if !PartValid(r, safe, RegisterMain) || !PartValid(r, safe, RegisterDelays) {
      RegisterBadField(r, safe, current);
    } else {
      RegisterRefusal(r, safe, current);
      if !PartValid(r, one, RuntimeMain) || !PartValid(r, one, RuntimeNumbers) {
        RuntimeBadField(r, one, current);
      } else {
        RuntimeRefusal(r, one, current);
      }
    }
  }

  // ---------------------------------------------------------------- what follows for runs

  lemma NormalFormFields(r: Rules, safe: Config)
    requires FieldsSteady(r) && FieldsValid(r, safe)
    ensures FieldsNormal(r, NormalForm(r, safe)) && PolicyAgrees(NormalForm(r, safe))
  {
    var b, n := NormalFields(r, safe), NormalForm(r, safe);
    forall k | k in n && k != RegisterUnique ensures r.field(k, n[k]) == Some(n[k]) {
      if k in safe {
        assert r.field(k, safe[k]) == Some(b[k]);
        assert n[k] == b[k];
      }
    }
  }

  lemma MergeKeepsFields(r: Rules, current: Config, s: Config)
    requires FieldsNormal(r, current) && PolicyAgrees(current) && FieldsNormal(r, s) && PolicyAgrees(s)
    ensures FieldsNormal(r, current + s) && PolicyAgrees(current + s)
  {
  }

  /** An accepted update keeps the configuration consistent. */
  lemma UpdateKeepsConsistent(r: Rules, safe: Config, current: Config)
    requires FieldsSteady(r) && ChecksFramed(r) && Consistent(r, current) && Update(r, safe, current).Ok?
    ensures Consistent(r, current + Update(r, safe, current).value)
  {
    UpdateExact(r, safe, current);
    NormalFormFields(r, safe);
    MergeKeepsFields(r, current, NormalForm(r, safe));
  }

  lemma AgreementRestored(m: Config, n: Config)
    requires m.Keys == n.Keys && PolicyAgrees(n) && forall k :: k in n && k != RegisterUnique ==> m[k] == n[k]
    ensures Coherent(m) == n
  {
    forall k | k in n ensures Coherent(m)[k] == n[k] {
    }
  }

  lemma NormalFormTwice(r: Rules, safe: Config)
    requires FieldsSteady(r) && FieldsValid(r, safe)
    ensures FieldsValid(r, NormalForm(r, safe)) && NormalForm(r, NormalForm(r, safe)) == NormalForm(r, safe)
  {
    var n := NormalForm(r, safe);
    NormalFormFields(r, safe);
    var m := NormalFields(r, n);
    forall k | k in n && k != RegisterUnique ensures m[k] == n[k] && r.field(k, n[k]).Some? {
      assert r.field(k, n[k]) == Some(n[k]);
    }
    assert RegisterUnique in n ==> r.field(RegisterUnique, n[RegisterUnique]).Some?;
    AgreementRestored(m, n);
  }

  /** Sending an accepted update again, in the form in which it was saved, changes nothing. */
  lemma UpdateIdempotent(r: Rules, safe: Config, current: Config)
    requires FieldsSteady(r) && ChecksFramed(r) && Consistent(r, current) && Update(r, safe, current).Ok?
    ensures var s := Update(r, safe, current).value;
            Update(r, s, current) == Ok(s) && Update(r, s, current + s) == Ok(s) && current + s + s == current + s
  {
    UpdateExact(r, safe, current);
    var s := NormalForm(r, safe);
    NormalFormTwice(r, safe);
    UpdateExact(r, s, current);
    assert current + s + s == current + s;
    UpdateExact(r, s, current + s);
  }

  /** The stored configuration after a list of updates; refused ones leave it. */
  function Saved(r: Rules, current: Config, updates: seq<Config>): Config
    decreases |updates|
  {
    if updates == [] then current
    else match Update(r, updates[0], current)
      case Ok(s) => Saved(r, current + s, updates[1..])
      case Err(_) => Saved(r, current, updates[1..])
  }

  lemma {:induction false} RunsStayConsistent(r: Rules, current: Config, updates: seq<Config>)
    requires FieldsSteady(r) && ChecksFramed(r) && Consistent(r, current)
    ensures Consistent(r, Saved(r, current, updates))
    decreases |updates|
  {
    if updates != [] {
      match Update(r, updates[0], current)
      case Ok(s) =>
        UpdateKeepsConsistent(r, updates[0], current);
        RunsStayConsistent(r, current + s, updates[1..]);
      case Err(_) => RunsStayConsistent(r, current, updates[1..]);
    }
  }

  // ---------------------------------------------------------------- the loops

  function NamedIn(safe: Config, part: Part): set<Key> {
    set k | k in safe && PartOf(k) == part
  }

  /** The settings of `part` outside `todo` are in normal form, all others as in `safe`. */
  ghost predicate PartlyNormal(r: Rules, safe: Config, part: Part, todo: set<Key>, now: Config) {
    && now.Keys == safe.Keys && todo <= NamedIn(safe, part)
    && (forall k :: k in NamedIn(safe, part) - todo ==> r.field(k, safe[k]) == Some(now[k]))
    && (forall k :: k in safe && k !in NamedIn(safe, part) - todo ==> now[k] == safe[k])
  }

  lemma WhollyNormal(r: Rules, safe: Config, part: Part, now: Config)
    requires PartlyNormal(r, safe, part, {}, now)
    ensures PartValid(r, safe, part) && now == Normal(r, safe, part)
  {
    forall k | k in safe && PartOf(k) == part ensures r.field(k, safe[k]) == Some(now[k]) {
      assert k in NamedIn(safe, part) - {};
    }
    forall k | k in safe ensures now[k] == Normal(r, safe, part)[k] {
      LoopAt(r, safe, part, k);
    }
  }

  /** Visit the settings of one part that the update names, in any order, and overwrite each with its
      normal form. */
  method NormalizePart(r: Rules, safe: Config, part: Part) returns (c: Result<Config, Fault>)
    ensures PartValid(r, safe, part) ==> c == Ok(Normal(r, safe, part))
    ensures !PartValid(r, safe, part) ==> c == Err(BadField)
  {
    var now := safe;
    var todo := NamedIn(safe, part);
    while todo != {}
      invariant PartlyNormal(r, safe, part, todo, now)
      decreases |todo|
    {
      var key :| key in todo;
      assert key in NamedIn(safe, part);
      match r.field(key, now[key]) {
        case None => return Err(BadField);
        case Some(v) => now := now[key := v];
      }
      todo := todo - {key};
    }
    WhollyNormal(r, safe, part, now);
    c := Ok(now);
  }

  method NormalizeRegisterControl(r: Rules, safe: Config, current: Config) returns (c: Result<Config, Fault>)
    ensures c == RegisterControl(r, safe, current)
  {
    if !Touches(safe, RegisterMain, RegisterDelays) {
      return Ok(safe);
    }
    c := NormalizePart(r, safe, RegisterMain);
    if c.Err? {
      return;
    }
    c := NormalizePart(r, Coherent(c.value), RegisterDelays);
    if c.Err? {
      return;
    }
    var fault := r.registerFault(current + c.value);
    if fault.Some? {
      return Err(fault.value);
    }
  }

  method NormalizeRuntimeCapacity(r: Rules, safe: Config, current: Config) returns (c: Result<Config, Fault>)
    ensures c == RuntimeCapacity(r, safe, current)
  {
    if !Touches(safe, RuntimeMain, RuntimeNumbers) {
      return Ok(safe);
    }
    c := NormalizePart(r, safe, RuntimeMain);
    if c.Err? {
      return;
    }
    if TouchesReserves(c.value) {
      var reserves := r.reserveFault(current + c.value);
      if reserves.Some? {
        return Err(reserves.value);
      }
    }
    c := NormalizePart(r, c.value, RuntimeNumbers);
    if c.Err? {
      return;
    }
    var fault := r.solverFault(current + c.value);
    if fault.Some? {
      return Err(fault.value);
    }
  }

  method NormalizeLocalStatusProbe(r: Rules, safe: Config, current: Config) returns (c: Result<Config, Fault>)
    ensures c == LocalStatusProbe(r, safe, current)
  {
    if !Touches(safe, Probe, Probe) {
      return Ok(safe);
    }
    c := NormalizePart(r, safe, Probe);
    if c.Err? {
      return;
    }
    var fault := r.probeFault(current + c.value);
    if fault.Some? {
      return Err(fault.value);
    }
  }

  method NormalizeUpdate(r: Rules, safe: Config, current: Config) returns (c: Result<Config, Fault>)
    ensures c == Update(r, safe, current)
  {
    c := NormalizeRegisterControl(r, safe, current);
    if c.Ok? {
      c := NormalizeRuntimeCapacity(r, c.value, current);
    }
    if c.Ok? {
      c := NormalizeLocalStatusProbe(r, c.value, current);
    }
  }
}
