/**
 The manual-drive speed policy of server/app/commands/tuning_policy.py: a robot
 without a tuning capability keeps the fixed commissioned envelope; a robot that
 promises a dynamic policy must supply a fresh, canonical, session-bound one
 that lies inside that envelope, or manual input is refused.
 */
module TuningPolicy {
  import opened Options

  const HARD_MAX_LINEAR: real := 0.30
  const HARD_MAX_ANGULAR: real := 0.70
  const POLICY_MAX_AGE: real := 5.0
  const POLICY_FUTURE_TOLERANCE: real := 0.5
  const MAX_GENERATION_LENGTH := 128
  const CAP_TOLERANCE: real := 0.000000001

  datatype Mode = Legacy | Dynamic

  datatype Policy = Policy(mode: Mode, maxLinear: real, maxAngular: real, generation: Option<string>,
                           received: Option<real>, robotGeneration: Option<int>)

  /** What a frame-by-frame comparison looks at to notice a policy change. */
  datatype Signature = Signature(mode: Mode, maxLinear: real, maxAngular: real, generation: Option<string>)

  /** The fields a provider supplied; None stands for a value of the wrong kind
      (missing, boolean, not a finite number, not a string, not an integer). */
  datatype Fields = Fields(linear: Option<real>, angular: Option<real>, generation: Option<string>,
                           received: Option<real>, robotGeneration: Option<int>)

  /** What the trusted source handed over. */
  datatype Source = Absent | Failing | Mapping(keys: set<string>, fields: Fields) | Attributes(fields: Fields)

  const REQUIRED_KEYS: set<string> :=
    {"max_linear_m_s", "max_angular_rad_s", "generation", "received_mono", "robot_generation"}

  const LEGACY_POLICY := Policy(Legacy, HARD_MAX_LINEAR, HARD_MAX_ANGULAR, None, None, None)

  function SignatureOf(p: Policy): Signature {
    Signature(p.mode, p.maxLinear, p.maxAngular, p.generation)
  }

  function Abs(x: real): real { if x < 0.0 then -x else x }

  predicate OverPolicy(p: Policy, linear: real, angular: real) {
    Abs(linear) > p.maxLinear + CAP_TOLERANCE || Abs(angular) > p.maxAngular + CAP_TOLERANCE
  }

  predicate AlphaNumeric(c: char) {
    'a' <= c <= 'z' || 'A' <= c <= 'Z' || '0' <= c <= '9'
  }

  predicate ValidGeneration(g: string) {
    && 1 <= |g| <= MAX_GENERATION_LENGTH
    && (forall i :: 0 <= i < |g| - 1 ==> !(g[i] == '.' && g[i + 1] == '.'))
    && (exists i :: 0 <= i < |g| && AlphaNumeric(g[i]))
    && (forall i :: 0 <= i < |g| ==> AlphaNumeric(g[i]) || g[i] in "-_.:")
  }

  function ValidateFields(f: Fields, now: real): Option<Policy> {
    if f.linear.None? || f.linear.value < 0.0 || f.linear.value > HARD_MAX_LINEAR then None
    else if f.angular.None? || f.angular.value < 0.0 || f.angular.value > HARD_MAX_ANGULAR then None
    else if f.generation.None? || !ValidGeneration(f.generation.value) then None
    else if f.received.None? || f.received.value > now + POLICY_FUTURE_TOLERANCE then None
    else if now - f.received.value > POLICY_MAX_AGE then None
    else if f.robotGeneration.None? || f.robotGeneration.value < 0 then None
    else Some(Policy(Dynamic, f.linear.value, f.angular.value, f.generation, f.received, f.robotGeneration))
  }

  function Parse(source: Source, now: real): Option<Policy> {
    match source
    case Absent => None
    case Failing => None
    case Mapping(keys, fields) => if keys != REQUIRED_KEYS then None else ValidateFields(fields, now)
    case Attributes(fields) => ValidateFields(fields, now)
  }

  /** `capable` says whether the robot advertises a capability that promises a policy. */
  function Resolve(capable: bool, source: Source, now: real, robotGeneration: Option<int>): Option<Policy> {
    if !capable then Some(LEGACY_POLICY)
    else
      match Parse(source, now)
      case None => None
      case Some(p) => if p.robotGeneration != robotGeneration then None else Some(p)
  }

  predicate InEnvelope(p: Policy) {
    0.0 <= p.maxLinear <= HARD_MAX_LINEAR && 0.0 <= p.maxAngular <= HARD_MAX_ANGULAR
  }

  /** Exactly when a policy is granted to a robot that promised one. */
  predicate Grantable(source: Source, now: real, robotGeneration: Option<int>) {
    && (source.Mapping? || source.Attributes?)
    && (source.Mapping? ==> source.keys == REQUIRED_KEYS)
    && var f := source.fields;
    && f.linear.Some? && 0.0 <= f.linear.value <= HARD_MAX_LINEAR
    && f.angular.Some? && 0.0 <= f.angular.value <= HARD_MAX_ANGULAR
    && f.generation.Some? && ValidGeneration(f.generation.value)
    && f.received.Some? && now - POLICY_MAX_AGE <= f.received.value <= now + POLICY_FUTURE_TOLERANCE
    && f.robotGeneration.Some? && f.robotGeneration.value >= 0 && f.robotGeneration == robotGeneration
  }

  /** No source can enlarge the commissioned envelope, and nothing it sends makes
      a capable robot fall back to the higher fixed default. */
  lemma ResolveKeepsEnvelope(capable: bool, source: Source, now: real, robotGeneration: Option<int>)
    ensures var r := Resolve(capable, source, now, robotGeneration);
            && (r.Some? ==> InEnvelope(r.value))
            && (capable && r.Some? ==> r.value.mode == Dynamic)
            && (capable ==> (r.Some? <==> Grantable(source, now, robotGeneration)))
  {
  }
}
