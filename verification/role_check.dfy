/** `RoleImpl.CheckAndSetDefaults`: normalise kind and version, fill unset
    options, migrate older schema versions, then validate; the first failing
    check aborts the whole call. */
module RoleCheck {
  import opened Wrappers
  import opened Constants
  import opened LabelSets
  import opened Rules
  import opened KubeResources
  import opened Impersonation
  import opened SeqChecks
  import opened RoleTypes

  /** Why a role was rejected, one constructor per check of the source. */
  datatype RoleError =
    | MetadataInvalid
    | UnrecognizedVersion(version: string)
    | KubeResourceInvalid(kubeError: KubeError)
    | InvalidEnhancedRecording(value: string)
    | InvalidLockMode(value: string)
    | WildcardNotAllowed(list: StringListField)
    | WildcardSelectorNotSupported(labels: LabelField)
    | RuleInvalid(polarity: Polarity, index: nat, ruleError: RuleError)
    | DenyImpersonateWhere
    | ImpersonateInvalid(polarity: Polarity, impersonateError: ImpersonateError)

  /** The allow lists in which a bare `*` entry is refused, in checking order. */
  const WildcardCheckedLists: seq<StringListField> :=
    [Logins, AWSRoleARNs, AzureIdentities, GCPServiceAccounts]

  /** The allow label maps held to the selector rule, in checking order. */
  const SelectorCheckedLabels: seq<LabelField> :=
    [NodeLabels, AppLabels, KubernetesLabels, DatabaseLabels, WindowsDesktopLabels, GroupLabels]

  predicate IsNormalVersion(v: string) {
    v == V3 || v == V4 || v == V5 || v == V6
  }

  // ---- defaulting steps

  /** `setStaticFields`: the kind is always "role"; any version other than
      v3, v4 or v5 (v7 and unknown strings included) becomes v6. */
  function SetStaticFields(r: Role): (r': Role)
    ensures r'.kind == KindRole && IsNormalVersion(r'.version)
    ensures r.version == V3 || r.version == V4 || r.version == V5 ==> r'.version == r.version
    ensures !(r.version == V3 || r.version == V4 || r.version == V5) ==> r'.version == V6
    ensures r'.metadata == r.metadata && r'.spec == r.spec
  {
    var version := if r.version != V3 && r.version != V4 && r.version != V5 then V6 else r.version;
    r.(kind := KindRole, version := version)
  }

  function DefaultTo<T>(o: Option<T>, d: T): Option<T> {
    if o.None? then Some(d) else o
  }

  /** The recording defaults used when `record_session` is unset. */
  const DefaultRecordSession: RecordSession := RecordSession(Some(true), SessionRecordingModeBestEffort, "")

  /** IdP access is allowed by default. */
  const DefaultIdP: IdPOptions := IdPOptions(Some(IdPSAMLOptions(Some(true))))

  /** Fills every unset option and the unset allow namespaces. */
  function SetOptionDefaults(env: Env, r: Role): (r': Role)
    ensures r'.kind == r.kind && r'.version == r.version && r'.metadata == r.metadata
    ensures r'.spec.deny == r.spec.deny
    ensures r'.spec.allow == r.spec.allow.(namespaces := r'.spec.allow.namespaces)
  {
    var o := r.spec.options;
    var o' := o.(
      certificateFormat := if o.certificateFormat == "" then CertificateFormatStandard else o.certificateFormat,
      maxSessionTTL := if o.maxSessionTTL == 0 then env.maxCertDuration else o.maxSessionTTL,
      portForwarding := DefaultTo(o.portForwarding, true),
      bpf := if |o.bpf| == 0 then env.enhancedEvents else o.bpf,
      recordSession := DefaultTo(o.recordSession, DefaultRecordSession),
      desktopClipboard := DefaultTo(o.desktopClipboard, true),
      desktopDirectorySharing := DefaultTo(o.desktopDirectorySharing, true),
      createHostUser := DefaultTo(o.createHostUser, false),
      createDesktopUser := DefaultTo(o.createDesktopUser, false),
      sshFileCopy := DefaultTo(o.sshFileCopy, true),
      idp := DefaultTo(o.idp, DefaultIdP));
    var allow := r.spec.allow.(namespaces := DefaultTo(r.spec.allow.namespaces, [env.defaultNamespace]));
    r.(spec := r.spec.(options := o', allow := allow))
  }

  /** The v3 label defaults: node access follows from logins, app, kubernetes
      and database access default to everything. */
  function DefaultV3Labels(r: Role): Role {
    var a := r.spec.allow;
    var node := if a.nodeLabels.None? then
                  (if |a.logins| == 0 then Some(map[]) else Some(WildcardLabels))
                else a.nodeLabels;
    var allow := a.(nodeLabels := node,
                    appLabels := DefaultTo(a.appLabels, WildcardLabels),
                    kubernetesLabels := DefaultTo(a.kubernetesLabels, WildcardLabels),
                    databaseLabels := DefaultTo(a.databaseLabels, WildcardLabels));
    r.(spec := r.spec.(allow := allow))
  }

  /** The resource scope granting every pod in every namespace. */
  function AllPods(env: Env): KubernetesResource {
    KubernetesResource(env.kindKubePod, Wildcard, Wildcard)
  }

  /** Pre-v6 roles that grant Kubernetes labels without naming resources get
      access to all pods. */
  function SynthesizeKubeResources(env: Env, r: Role): Role {
    var a := r.spec.allow;
    if |a.kubernetesResources| == 0 && Len(a.kubernetesLabels) > 0 then
      r.(spec := r.spec.(allow := a.(kubernetesResources := [AllPods(env)])))
    else r
  }

  function SetDenyNamespaceDefault(env: Env, r: Role): (r': Role)
    ensures r'.kind == r.kind && r'.version == r.version && r'.metadata == r.metadata
    ensures r'.spec.options == r.spec.options && r'.spec.allow == r.spec.allow
    ensures r'.spec.deny == r.spec.deny.(namespaces := r'.spec.deny.namespaces)
  {
    r.(spec := r.spec.(deny := r.spec.deny.(namespaces := DefaultTo(r.spec.deny.namespaces, [env.defaultNamespace]))))
  }

  /** A non-positive session TTL is reset to the maximum certificate duration. */
  function CorrectSessionTTL(env: Env, r: Role): (r': Role)
    ensures r'.kind == r.kind && r'.version == r.version && r'.metadata == r.metadata
    ensures r'.spec.allow == r.spec.allow && r'.spec.deny == r.spec.deny
    ensures r'.spec.options == r.spec.options.(maxSessionTTL := r'.spec.options.maxSessionTTL)
  {
    if r.spec.options.maxSessionTTL <= 0 then
      r.(spec := r.spec.(options := r.spec.options.(maxSessionTTL := env.maxCertDuration)))
    else r
  }

  // ---- validation steps

  /** `validateRoleSpecKubeResources`: allow resources, then deny resources. */
  function ValidateRoleSpecKubeResources(kinds: seq<string>, spec: RoleSpec): (o: Outcome<RoleError>)
    ensures o.Pass? <==>
              (forall k :: k in spec.allow.kubernetesResources ==> KubeResourceValid(kinds, k)) &&
              (forall k :: k in spec.deny.kubernetesResources ==> KubeResourceValid(kinds, k))
    ensures o.Fail? ==> o.error.KubeResourceInvalid?
    ensures o.Fail? && !(forall k :: k in spec.allow.kubernetesResources ==> KubeResourceValid(kinds, k)) ==>
              ValidateKubeResources(kinds, spec.allow.kubernetesResources) == Fail(o.error.kubeError)
  {
    match ValidateKubeResources(kinds, spec.allow.kubernetesResources)
    case Fail(e) => Fail(KubeResourceInvalid(e))
    case Pass =>
      match ValidateKubeResources(kinds, spec.deny.kubernetesResources)
      case Fail(e) => Fail(KubeResourceInvalid(e))
      case Pass => Pass
  }

  function ValidatedKube(env: Env, r: Role): (res: Result<Role, RoleError>)
    ensures res.Success? ==> res.value == r
  {
    ValidateRoleSpecKubeResources(env.kubeResourceKinds, r.spec).ToResult(r)
  }

  /** The version switch. v3 falls through into the v4/v5 case; v6 only
      validates; any other version is refused. */
  function MigrateVersion(env: Env, r: Role): (res: Result<Role, RoleError>)
    ensures res.Failure? && res.error.UnrecognizedVersion? <==> !IsNormalVersion(r.version)
    ensures res.Failure? ==> res.error.UnrecognizedVersion? || res.error.KubeResourceInvalid?
    ensures res.Success? ==>
              res.value.kind == r.kind && res.value.version == r.version && res.value.metadata == r.metadata
    ensures res.Success? ==>
              && res.value.spec.deny == r.spec.deny && res.value.spec.options == r.spec.options
              && res.value.spec.allow.rules == r.spec.allow.rules
              && res.value.spec.allow.impersonate == r.spec.allow.impersonate
  {
    if r.version == V3 then ValidatedKube(env, SynthesizeKubeResources(env, DefaultV3Labels(r)))
    else if r.version == V4 || r.version == V5 then ValidatedKube(env, SynthesizeKubeResources(env, r))
    else if r.version == V6 then ValidatedKube(env, r)
    else Failure(UnrecognizedVersion(r.version))
  }

  /** Every enhanced-recording entry must name a known event kind. */
  function ValidateEnhancedRecording(bpf: seq<string>): (o: Outcome<RoleError>)
    ensures o.Pass? <==> forall e :: e in bpf ==> IsEnhancedRecording(e)
    ensures o.Fail? ==> o.error.InvalidEnhancedRecording? && o.error.value in bpf &&
                        !IsEnhancedRecording(o.error.value)
    ensures o.Fail? ==> exists i :: 0 <= i < |bpf| && bpf[i] == o.error.value &&
                                   forall j :: 0 <= j < i ==> IsEnhancedRecording(bpf[j])
  {
    var o := CheckAll(bpf, e => Need(IsEnhancedRecording(e), InvalidEnhancedRecording(e)));
    assert o.Pass? <==> forall i :: 0 <= i < |bpf| ==> IsEnhancedRecording(bpf[i]);
    o
  }

  function ValidateLockMode(lock: string): (o: Outcome<RoleError>)
    ensures o.Pass? <==> IsLockingMode(lock)
    ensures o.Fail? ==> o.error == InvalidLockMode(lock)
  {
    Need(IsLockingMode(lock), InvalidLockMode(lock))
  }

  /** The loop over one allow list that refuses a bare `*` entry. */
  function RejectWildcard(s: seq<string>, list: StringListField): (o: Outcome<RoleError>)
    ensures o.Pass? <==> Wildcard !in s
    ensures o.Fail? ==> o.error == WildcardNotAllowed(list)
  {
    var o := CheckAll(s, x => Need(x != Wildcard, WildcardNotAllowed(list)));
    assert o.Pass? <==> forall i :: 0 <= i < |s| ==> s[i] != Wildcard;
    o
  }

  function CheckWildcardSelector(l: Labels, f: LabelField): (o: Outcome<RoleError>)
    ensures o.Pass? <==> WildcardSelectorOk(l)
    ensures o.Fail? ==> o.error == WildcardSelectorNotSupported(f)
  {
    Need(WildcardSelectorOk(l), WildcardSelectorNotSupported(f))
  }

  /** `f` is the first list, in checking order, that holds a bare `*`. */
  ghost predicate FirstWildcardList(c: RoleConditions, f: StringListField) {
    exists i :: 0 <= i < |WildcardCheckedLists| && WildcardCheckedLists[i] == f
                && Wildcard in StringsOf(c, f)
                && forall j :: 0 <= j < i ==> Wildcard !in StringsOf(c, WildcardCheckedLists[j])
  }

  /** `f` is the first label map, in checking order, that breaks the selector rule. */
  ghost predicate FirstBadSelector(c: RoleConditions, f: LabelField) {
    exists i :: 0 <= i < |SelectorCheckedLabels| && SelectorCheckedLabels[i] == f
                && !WildcardSelectorOk(LabelsOf(c, f))
                && forall j :: 0 <= j < i ==> WildcardSelectorOk(LabelsOf(c, SelectorCheckedLabels[j]))
  }

  lemma FirstWildcardListAt(c: RoleConditions, i: nat)
    requires i < |WildcardCheckedLists| && Wildcard in StringsOf(c, WildcardCheckedLists[i])
    requires forall j :: 0 <= j < i ==> Wildcard !in StringsOf(c, WildcardCheckedLists[j])
    ensures FirstWildcardList(c, WildcardCheckedLists[i])
  {
  }

  lemma FirstBadSelectorAt(c: RoleConditions, i: nat)
    requires i < |SelectorCheckedLabels| && !WildcardSelectorOk(LabelsOf(c, SelectorCheckedLabels[i]))
    requires forall j :: 0 <= j < i ==> WildcardSelectorOk(LabelsOf(c, SelectorCheckedLabels[j]))
    ensures FirstBadSelector(c, SelectorCheckedLabels[i])
  {
  }

  /** The four loops over the allow lists; the error names the first list
      holding a bare `*`. */
  function RestrictWildcardLists(c: RoleConditions): (o: Outcome<RoleError>)
    ensures o.Pass? <==>
              Wildcard !in c.logins && Wildcard !in c.awsRoleARNs &&
              Wildcard !in c.azureIdentities && Wildcard !in c.gcpServiceAccounts
    ensures o.Fail? ==> o.error.WildcardNotAllowed? && FirstWildcardList(c, o.error.list)
  {
    var logins := RejectWildcard(c.logins, Logins);
    if logins.Fail? then FirstWildcardListAt(c, 0); logins else
    var arns := RejectWildcard(c.awsRoleARNs, AWSRoleARNs);
    if arns.Fail? then FirstWildcardListAt(c, 1); arns else
    var azure := RejectWildcard(c.azureIdentities, AzureIdentities);
    if azure.Fail? then FirstWildcardListAt(c, 2); azure else
    var gcp := RejectWildcard(c.gcpServiceAccounts, GCPServiceAccounts);
    if gcp.Fail? then FirstWildcardListAt(c, 3); gcp else
    Pass
  }

  /** The loop over the six allow label maps; the error names the first map
      breaking the selector rule. */
  function RestrictSelectors(c: RoleConditions): (o: Outcome<RoleError>)
    ensures o.Pass? <==>
              && WildcardSelectorOk(c.nodeLabels) && WildcardSelectorOk(c.appLabels)
              && WildcardSelectorOk(c.kubernetesLabels) && WildcardSelectorOk(c.databaseLabels)
              && WildcardSelectorOk(c.windowsDesktopLabels) && WildcardSelectorOk(c.groupLabels)
    ensures o.Fail? ==> o.error.WildcardSelectorNotSupported? && FirstBadSelector(c, o.error.labels)
  {
    var node := CheckWildcardSelector(c.nodeLabels, NodeLabels);
    if node.Fail? then FirstBadSelectorAt(c, 0); node else
    var app := CheckWildcardSelector(c.appLabels, AppLabels);
    if app.Fail? then FirstBadSelectorAt(c, 1); app else
    var kube := CheckWildcardSelector(c.kubernetesLabels, KubernetesLabels);
    if kube.Fail? then FirstBadSelectorAt(c, 2); kube else
    var db := CheckWildcardSelector(c.databaseLabels, DatabaseLabels);
    if db.Fail? then FirstBadSelectorAt(c, 3); db else
    var desktop := CheckWildcardSelector(c.windowsDesktopLabels, WindowsDesktopLabels);
    if desktop.Fail? then FirstBadSelectorAt(c, 4); desktop else
    var group := CheckWildcardSelector(c.groupLabels, GroupLabels);
    if group.Fail? then FirstBadSelectorAt(c, 5); group else
    Pass
  }

  /** "restrict wildcards": the four allow lists, then the six allow label
      maps, each in the source's order; the error names the first offender. */
  function RestrictWildcards(c: RoleConditions): (o: Outcome<RoleError>)
    ensures o.Pass? <==>
              && Wildcard !in c.logins && Wildcard !in c.awsRoleARNs
              && Wildcard !in c.azureIdentities && Wildcard !in c.gcpServiceAccounts
              && WildcardSelectorOk(c.nodeLabels) && WildcardSelectorOk(c.appLabels)
              && WildcardSelectorOk(c.kubernetesLabels) && WildcardSelectorOk(c.databaseLabels)
              && WildcardSelectorOk(c.windowsDesktopLabels) && WildcardSelectorOk(c.groupLabels)
    ensures o.Fail? ==> o.error.WildcardNotAllowed? || o.error.WildcardSelectorNotSupported?
    ensures o.Fail? && o.error.WildcardNotAllowed? ==> FirstWildcardList(c, o.error.list)
    ensures o.Fail? && o.error.WildcardSelectorNotSupported? ==>
              && FirstBadSelector(c, o.error.labels)
              && Wildcard !in c.logins && Wildcard !in c.awsRoleARNs
              && Wildcard !in c.azureIdentities && Wildcard !in c.gcpServiceAccounts
  {
    RestrictWildcardLists(c).Then(RestrictSelectors(c))
  }

  /** The rules of one polarity; a failure carries the polarity and index. */
  function ValidateRuleList(p: Polarity, rules: seq<Rule>): (o: Outcome<RoleError>)
    ensures o.Pass? <==> forall rule :: rule in rules ==> CheckRule(rule).Pass?
    ensures o.Fail? ==> o.error.RuleInvalid? && o.error.polarity == p && o.error.index < |rules|
                        && CheckRule(rules[o.error.index]) == Fail(o.error.ruleError)
                        && forall j :: 0 <= j < o.error.index ==> CheckRule(rules[j]).Pass?
  {
    match FirstFailure(rules, CheckRule)
    case None => Pass
    case Some(i) => Fail(RuleInvalid(p, i, CheckRule(rules[i]).error))
  }

  function ValidateRules(spec: RoleSpec): (o: Outcome<RoleError>)
    ensures o.Pass? <==> (forall rule :: rule in spec.allow.rules ==> CheckRule(rule).Pass?) &&
                         (forall rule :: rule in spec.deny.rules ==> CheckRule(rule).Pass?)
    ensures o.Fail? ==> o.error.RuleInvalid? && RuleErrorLocated(spec.allow.rules, spec.deny.rules, o.error)
  {
    var allow := ValidateRuleList(Allow, spec.allow.rules);
    if allow.Fail? then allow else ValidateRuleList(Deny, spec.deny.rules)
  }

  /** A rule error points at the first bad rule of its polarity, and a deny
      error means every allow rule passed. */
  predicate RuleErrorLocated(allowRules: seq<Rule>, denyRules: seq<Rule>, e: RoleError)
    requires e.RuleInvalid?
  {
    var rules := if e.polarity == Allow then allowRules else denyRules;
    && e.index < |rules|
    && CheckRule(rules[e.index]) == Fail(e.ruleError)
    && (forall j :: 0 <= j < e.index ==> CheckRule(rules[j]).Pass?)
    && (e.polarity == Deny ==> forall rule :: rule in allowRules ==> CheckRule(rule).Pass?)
  }

  function WrapImpersonate(p: Polarity, o: Outcome<ImpersonateError>): Outcome<RoleError> {
    match o
    case Pass => Pass
    case Fail(e) => Fail(ImpersonateInvalid(p, e))
  }

  /** Allow impersonation is validated; deny impersonation must first have no
      `where`, then is validated. */
  function ValidateImpersonation(spec: RoleSpec): (o: Outcome<RoleError>)
    ensures o.Pass? <==>
              (spec.allow.impersonate.Some? ==> CheckImpersonate(spec.allow.impersonate.value).Pass?) &&
              (spec.deny.impersonate.Some? ==> spec.deny.impersonate.value.where == "" &&
                                                CheckImpersonate(spec.deny.impersonate.value).Pass?)
    ensures o.Fail? ==> o.error.DenyImpersonateWhere? || o.error.ImpersonateInvalid?
    ensures o.Fail? && o.error.ImpersonateInvalid? && o.error.polarity == Allow ==>
              spec.allow.impersonate.Some? && CheckImpersonate(spec.allow.impersonate.value) == Fail(o.error.impersonateError)
    ensures o.Fail? && (o.error.DenyImpersonateWhere? || o.error.polarity == Deny) ==>
              (spec.allow.impersonate.Some? ==> CheckImpersonate(spec.allow.impersonate.value).Pass?)
    ensures o.Fail? && o.error.DenyImpersonateWhere? ==>
              spec.deny.impersonate.Some? && spec.deny.impersonate.value.where != ""
    ensures o.Fail? && o.error.ImpersonateInvalid? && o.error.polarity == Deny ==>
              && spec.deny.impersonate.Some? && spec.deny.impersonate.value.where == ""
              && CheckImpersonate(spec.deny.impersonate.value) == Fail(o.error.impersonateError)
  {
    var allow := match spec.allow.impersonate
                 case None => Pass
                 case Some(c) => WrapImpersonate(Allow, CheckImpersonate(c));
    if allow.Fail? then allow else
    match spec.deny.impersonate
    case None => Pass
    case Some(c) =>
      if c.where != "" then Fail(DenyImpersonateWhere)
      else WrapImpersonate(Deny, CheckImpersonate(c))
  }

  // ---- the whole check

  /** Everything after the version switch: deny namespaces, option checks,
      the session TTL correction, wildcards, rules and impersonation. */
  function CheckMigrated(env: Env, r: Role): (res: Result<Role, RoleError>)
    ensures res.Success? ==>
              res.value.kind == r.kind && res.value.version == r.version && res.value.metadata == r.metadata
    ensures res.Failure? ==> !res.error.UnrecognizedVersion? && res.error != MetadataInvalid
    ensures res.Failure? && res.error.RuleInvalid? ==> RuleErrorLocated(r.spec.allow.rules, r.spec.deny.rules, res.error)
    ensures res.Failure? && res.error.ImpersonateInvalid? && res.error.polarity == Deny ==>
              r.spec.deny.impersonate.Some? && r.spec.deny.impersonate.value.where == ""
  {
    var r4 := SetDenyNamespaceDefault(env, r);
    var recording := ValidateEnhancedRecording(r4.spec.options.bpf);
    if recording.Fail? then Failure(recording.error) else
    var lock := ValidateLockMode(r4.spec.options.lock);
    if lock.Fail? then Failure(lock.error) else
    CheckCorrected(CorrectSessionTTL(env, r4))
  }

  /** The checks after the session TTL correction: wildcards, rules and
      impersonation. */
  function CheckCorrected(r: Role): (res: Result<Role, RoleError>)
    ensures res.Success? ==> res.value == r
    ensures res.Failure? ==>
              res.error.WildcardNotAllowed? || res.error.WildcardSelectorNotSupported? ||
              res.error.RuleInvalid? || res.error.DenyImpersonateWhere? || res.error.ImpersonateInvalid?
    ensures res.Failure? && res.error.RuleInvalid? ==> RuleErrorLocated(r.spec.allow.rules, r.spec.deny.rules, res.error)
    ensures res.Failure? && res.error.ImpersonateInvalid? && res.error.polarity == Deny ==>
              r.spec.deny.impersonate.Some? && r.spec.deny.impersonate.value.where == ""
  {
    var wildcards := RestrictWildcards(r.spec.allow);
    if wildcards.Fail? then Failure(wildcards.error) else
    var rules := ValidateRules(r.spec);
    if rules.Fail? then Failure(rules.error) else
    var impersonation := ValidateImpersonation(r.spec);
    if impersonation.Fail? then Failure(impersonation.error) else
    Success(r)
  }

  function CheckAndSetDefaults(env: Env, r: Role): (res: Result<Role, RoleError>)
    ensures res.Success? ==> res.value.kind == KindRole
    ensures res.Success? ==>
              res.value.version == (if r.version == V3 || r.version == V4 || r.version == V5 then r.version else V6)
    ensures res.Success? ==> res.value.metadata == r.metadata
    ensures res.Failure? ==> !res.error.UnrecognizedVersion?
    ensures res.Failure? && res.error == MetadataInvalid <==> !env.metadataValid(r.metadata)
    ensures res.Failure? && res.error.RuleInvalid? ==> RuleErrorLocated(r.spec.allow.rules, r.spec.deny.rules, res.error)
    ensures res.Failure? && res.error.ImpersonateInvalid? && res.error.polarity == Deny ==>
              r.spec.deny.impersonate.Some? && r.spec.deny.impersonate.value.where == ""
  {
    var r1 := SetStaticFields(r);
    if !env.metadataValid(r1.metadata) then Failure(MetadataInvalid) else
    var r2 := SetOptionDefaults(env, r1);
    match MigrateVersion(env, r2)
    case Failure(e) => Failure(e)
    case Success(r3) => CheckMigrated(env, r3)
  }
}
