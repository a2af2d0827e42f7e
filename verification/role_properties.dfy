/** What `CheckAndSetDefaults` promises, stated against a declarative view:
    the role is first brought to its defaulted form, then six checks run in a
    fixed order and the first that fails names the error. */
module RoleProperties {
  import opened Wrappers
  import opened Constants
  import opened LabelSets
  import opened Rules
  import opened KubeResources
  import opened Impersonation
  import opened SeqChecks
  import opened RoleTypes
  import opened RoleCheck

  // ---- the defaulted form

  /** The defaults of the version switch alone, without its validation. */
  function MigrationDefaults(env: Env, r: Role): Role {
    if r.version == V3 then SynthesizeKubeResources(env, DefaultV3Labels(r))
    else if r.version == V4 || r.version == V5 then SynthesizeKubeResources(env, r)
    else r
  }

  /** Every defaulting step of the check, in order, with no validation. */
  function Defaulted(env: Env, r: Role): Role {
    CorrectSessionTTL(env, SetDenyNamespaceDefault(env,
      MigrationDefaults(env, SetOptionDefaults(env, SetStaticFields(r)))))
  }

  /** A role every default has already been applied to: each default of the
      source is guarded by an "unset" test that such a role fails. */
  ghost predicate IsDefaulted(d: Role) {
    var o := d.spec.options;
    var a := d.spec.allow;
    && d.kind == KindRole && IsNormalVersion(d.version)
    && o.certificateFormat != "" && o.maxSessionTTL > 0 && |o.bpf| > 0
    && o.portForwarding.Some? && o.recordSession.Some? && o.desktopClipboard.Some?
    && o.desktopDirectorySharing.Some? && o.createHostUser.Some? && o.createDesktopUser.Some?
    && o.sshFileCopy.Some? && o.idp.Some?
    && a.namespaces.Some? && d.spec.deny.namespaces.Some?
    && (d.version == V3 ==>
          a.nodeLabels.Some? && a.appLabels.Some? && a.kubernetesLabels.Some? && a.databaseLabels.Some?)
    && (d.version == V3 || d.version == V4 || d.version == V5 ==>
          |a.kubernetesResources| > 0 || Len(a.kubernetesLabels) == 0)
  }

  lemma DefaultedIsDefaulted(env: Env, r: Role)
    requires env.maxCertDuration > 0 && |env.enhancedEvents| > 0
    ensures IsDefaulted(Defaulted(env, r))
  {
    var s := SetStaticFields(r);
    var o := SetOptionDefaults(env, s);
    var m := MigrationDefaults(env, o);
    var n := SetDenyNamespaceDefault(env, m);
    var d := CorrectSessionTTL(env, n);
    OptionDefaultsFill(env, s);
    MigrationDefaultsFill(env, o);
    assert n.spec.options == m.spec.options && n.spec.allow == m.spec.allow;
    assert d.spec.allow == n.spec.allow && d.spec.deny == n.spec.deny;
  }

  lemma OptionDefaultsFill(env: Env, r: Role)
    requires |env.enhancedEvents| > 0
    ensures var o := SetOptionDefaults(env, r).spec.options;
            && o.certificateFormat != "" && |o.bpf| > 0
            && o.portForwarding.Some? && o.recordSession.Some? && o.desktopClipboard.Some?
            && o.desktopDirectorySharing.Some? && o.createHostUser.Some? && o.createDesktopUser.Some?
            && o.sshFileCopy.Some? && o.idp.Some?
    ensures SetOptionDefaults(env, r).spec.allow.namespaces.Some?
  {
  }

  lemma MigrationDefaultsFill(env: Env, r: Role)
    ensures var m := MigrationDefaults(env, r);
            && m.kind == r.kind && m.version == r.version && m.spec.options == r.spec.options
            && m.spec.deny == r.spec.deny && m.spec.allow.namespaces == r.spec.allow.namespaces
    ensures var a := MigrationDefaults(env, r).spec.allow;
            r.version == V3 ==>
              a.nodeLabels.Some? && a.appLabels.Some? && a.kubernetesLabels.Some? && a.databaseLabels.Some?
    ensures var a := MigrationDefaults(env, r).spec.allow;
            r.version == V3 || r.version == V4 || r.version == V5 ==>
              |a.kubernetesResources| > 0 || Len(a.kubernetesLabels) == 0
  {
  }

  /** Applying the defaults to a defaulted role changes nothing. */
  lemma DefaultedFixesDefaulted(env: Env, d: Role)
    requires IsDefaulted(d)
    ensures Defaulted(env, d) == d
  {
    var s := SetStaticFields(d);
    assert s == d;
    var o := SetOptionDefaults(env, s);
    assert o.spec.options == d.spec.options;
    assert o.spec.allow == d.spec.allow;
    assert o == d;
    var m := MigrationDefaults(env, o);
    if d.version == V3 {
      assert DefaultV3Labels(d).spec.allow == d.spec.allow;
      assert DefaultV3Labels(d) == d;
    }
    assert m == d;
  }

  /** What the defaults touch in the options: only unset fields, the
      enhanced-recording list when empty, and a non-positive session TTL. */
  lemma {:induction false} DefaultedOptions(env: Env, r: Role)
    ensures var o0 := r.spec.options;
            var o := Defaulted(env, r).spec.options;
            && o.bpf == (if |o0.bpf| == 0 then env.enhancedEvents else o0.bpf)
            && o.lock == o0.lock
            && o.maxSessionTTL == (if o0.maxSessionTTL > 0 then o0.maxSessionTTL else env.maxCertDuration)
            && o.requireMFAType == o0.requireMFAType
  {
  }

  /** The value each unset option receives, and that a set option is kept:
      certificate format `standard`, port forwarding, desktop clipboard and
      directory sharing and SSH file copy on, host and desktop user creation
      off, best-effort recording with desktop recording on, and IdP SAML
      enabled. The options no default touches are kept. */
  lemma {:induction false} DefaultedOptionValues(env: Env, r: Role)
    ensures var o0 := r.spec.options;
            var o := Defaulted(env, r).spec.options;
            && o.certificateFormat == (if o0.certificateFormat == "" then "standard" else o0.certificateFormat)
            && o.portForwarding == (if o0.portForwarding.None? then Some(true) else o0.portForwarding)
            && o.recordSession == (if o0.recordSession.None? then Some(RecordSession(Some(true), "best_effort", ""))
                                   else o0.recordSession)
            && o.desktopClipboard == (if o0.desktopClipboard.None? then Some(true) else o0.desktopClipboard)
            && o.desktopDirectorySharing ==
                 (if o0.desktopDirectorySharing.None? then Some(true) else o0.desktopDirectorySharing)
            && o.createHostUser == (if o0.createHostUser.None? then Some(false) else o0.createHostUser)
            && o.createDesktopUser == (if o0.createDesktopUser.None? then Some(false) else o0.createDesktopUser)
            && o.sshFileCopy == (if o0.sshFileCopy.None? then Some(true) else o0.sshFileCopy)
            && o.idp == (if o0.idp.None? then Some(IdPOptions(Some(IdPSAMLOptions(Some(true))))) else o0.idp)
    ensures var o0 := r.spec.options;
            var o := Defaulted(env, r).spec.options;
            o.forwardAgent == o0.forwardAgent && o.pinSourceIP == o0.pinSourceIP
  {
    var s := SetStaticFields(r);
    var o := SetOptionDefaults(env, s);
    var m := MigrationDefaults(env, o);
    var n := SetDenyNamespaceDefault(env, m);
    MigrationDefaultsFill(env, o);
    assert n.spec.options == o.spec.options;
    assert CorrectSessionTTL(env, n).spec.options == o.spec.options.(maxSessionTTL := CorrectSessionTTL(env, n).spec.options.maxSessionTTL);
  }

  /** Unset namespaces of either polarity become the default namespace alone;
      set ones, empty included, are kept. */
  lemma {:induction false} DefaultedNamespaces(env: Env, r: Role)
    ensures Defaulted(env, r).spec.allow.namespaces ==
              if r.spec.allow.namespaces.None? then Some([env.defaultNamespace]) else r.spec.allow.namespaces
    ensures Defaulted(env, r).spec.deny.namespaces ==
              if r.spec.deny.namespaces.None? then Some([env.defaultNamespace]) else r.spec.deny.namespaces
  {
    var s := SetStaticFields(r);
    var o := SetOptionDefaults(env, s);
    var m := MigrationDefaults(env, o);
    var n := SetDenyNamespaceDefault(env, m);
    MigrationDefaultsFill(env, o);
    assert o.spec.deny == r.spec.deny;
    assert n.spec.allow == m.spec.allow;
    assert CorrectSessionTTL(env, n).spec.allow == n.spec.allow;
    assert CorrectSessionTTL(env, n).spec.deny == n.spec.deny;
  }

  /** On the allow side the defaults touch only the namespaces, the four
      label maps a v3 role defaults, and the Kubernetes resources. */
  lemma {:induction false} DefaultedAllowFrame(env: Env, r: Role)
    ensures var a := Defaulted(env, r).spec.allow;
            a == r.spec.allow.(namespaces := a.namespaces, nodeLabels := a.nodeLabels,
                               appLabels := a.appLabels, kubernetesLabels := a.kubernetesLabels,
                               databaseLabels := a.databaseLabels, kubernetesResources := a.kubernetesResources)
    ensures var a := Defaulted(env, r).spec.allow;
            r.version != V3 ==> a.nodeLabels == r.spec.allow.nodeLabels && a.appLabels == r.spec.allow.appLabels
                                && a.kubernetesLabels == r.spec.allow.kubernetesLabels
                                && a.databaseLabels == r.spec.allow.databaseLabels
    ensures var a := Defaulted(env, r).spec.allow;
            && (r.spec.allow.nodeLabels.Some? ==> a.nodeLabels == r.spec.allow.nodeLabels)
            && (r.spec.allow.appLabels.Some? ==> a.appLabels == r.spec.allow.appLabels)
            && (r.spec.allow.kubernetesLabels.Some? ==> a.kubernetesLabels == r.spec.allow.kubernetesLabels)
            && (r.spec.allow.databaseLabels.Some? ==> a.databaseLabels == r.spec.allow.databaseLabels)
  {
  }

  /** On the deny side the defaults touch only the namespaces. */
  lemma {:induction false} DefaultedDenyFrame(env: Env, r: Role)
    ensures var n := Defaulted(env, r).spec.deny;
            n == r.spec.deny.(namespaces := n.namespaces)
  {
    var s := SetStaticFields(r);
    var o := SetOptionDefaults(env, s);
    var m := MigrationDefaults(env, o);
    var n := SetDenyNamespaceDefault(env, m);
    assert o.spec.deny == r.spec.deny;
    MigrationDefaultsFill(env, o);
    assert n.spec.deny == m.spec.deny.(namespaces := n.spec.deny.namespaces);
    assert CorrectSessionTTL(env, n).spec.deny == n.spec.deny;
  }

  /** The Kubernetes resources of the defaulted role: pre-v6 roles that grant
      Kubernetes labels (after the v3 label defaults) but name no resources
      get the all-pods scope; all others keep theirs. */
  lemma {:induction false} DefaultedKubeResources(env: Env, r: Role)
    ensures var a0 := r.spec.allow;
            var grants := Len(a0.kubernetesLabels) > 0 || (r.version == V3 && a0.kubernetesLabels.None?);
            Defaulted(env, r).spec.allow.kubernetesResources ==
              if (r.version == V3 || r.version == V4 || r.version == V5) && |a0.kubernetesResources| == 0 && grants
              then [AllPods(env)] else a0.kubernetesResources
    ensures Defaulted(env, r).spec.deny.kubernetesResources == r.spec.deny.kubernetesResources
  {
    var s := SetStaticFields(r);
    var o := SetOptionDefaults(env, s);
    var m := MigrationDefaults(env, o);
    var n := SetDenyNamespaceDefault(env, m);
    assert o.spec.allow.kubernetesResources == r.spec.allow.kubernetesResources;
    assert o.spec.allow.kubernetesLabels == r.spec.allow.kubernetesLabels;
    if r.version == V3 && r.spec.allow.kubernetesLabels.None? {
      assert Len(Some(WildcardLabels)) == 1;
    }
    assert CorrectSessionTTL(env, n).spec.allow == m.spec.allow;
    DefaultedDenyFrame(env, r);
  }

  lemma DefaultedKeepsStrings(env: Env, r: Role, f: StringListField)
    ensures StringsOf(Defaulted(env, r).spec.allow, f) == StringsOf(r.spec.allow, f)
    ensures StringsOf(Defaulted(env, r).spec.deny, f) == StringsOf(r.spec.deny, f)
  {
    DefaultedAllowFrame(env, r);
    DefaultedDenyFrame(env, r);
  }

  lemma DefaultedKeepsRules(env: Env, r: Role)
    ensures Defaulted(env, r).spec.allow.rules == r.spec.allow.rules
    ensures Defaulted(env, r).spec.deny.rules == r.spec.deny.rules
  {
    DefaultedAllowFrame(env, r);
    DefaultedDenyFrame(env, r);
  }

  // ---- the six checks, declaratively

  datatype Check = KubeCheck | RecordingCheck | LockCheck | WildcardCheck | RuleCheck | ImpersonateCheck

  /** The order the source runs its checks in. */
  const CheckOrder: seq<Check> := [KubeCheck, RecordingCheck, LockCheck, WildcardCheck, RuleCheck, ImpersonateCheck]

  function Rank(c: Check): (n: nat)
    ensures n < |CheckOrder| && CheckOrder[n] == c
  {
    match c
    case KubeCheck => 0
    case RecordingCheck => 1
    case LockCheck => 2
    case WildcardCheck => 3
    case RuleCheck => 4
    case ImpersonateCheck => 5
  }

  /** Which check an error comes from; metadata and version errors come from none. */
  function CheckOf(e: RoleError): Option<Check> {
    match e
    case MetadataInvalid => None
    case UnrecognizedVersion(_) => None
    case KubeResourceInvalid(_) => Some(KubeCheck)
    case InvalidEnhancedRecording(_) => Some(RecordingCheck)
    case InvalidLockMode(_) => Some(LockCheck)
    case WildcardNotAllowed(_) => Some(WildcardCheck)
    case WildcardSelectorNotSupported(_) => Some(WildcardCheck)
    case RuleInvalid(_, _, _) => Some(RuleCheck)
    case DenyImpersonateWhere => Some(ImpersonateCheck)
    case ImpersonateInvalid(_, _) => Some(ImpersonateCheck)
  }

  ghost predicate KubeResourcesValid(env: Env, d: Role) {
    && (forall k :: k in d.spec.allow.kubernetesResources ==> KubeResourceValid(env.kubeResourceKinds, k))
    && (forall k :: k in d.spec.deny.kubernetesResources ==> KubeResourceValid(env.kubeResourceKinds, k))
  }

  ghost predicate WildcardsRestricted(a: RoleConditions) {
    && Wildcard !in a.logins && Wildcard !in a.awsRoleARNs
    && Wildcard !in a.azureIdentities && Wildcard !in a.gcpServiceAccounts
    && SelectorValid(a.nodeLabels) && SelectorValid(a.appLabels)
    && SelectorValid(a.kubernetesLabels) && SelectorValid(a.databaseLabels)
    && SelectorValid(a.windowsDesktopLabels) && SelectorValid(a.groupLabels)
  }

  ghost predicate RulesValid(d: Role) {
    && (forall rule :: rule in d.spec.allow.rules ==> RuleValid(rule))
    && (forall rule :: rule in d.spec.deny.rules ==> RuleValid(rule))
  }

  ghost predicate ImpersonationValid(d: Role) {
    var a := d.spec.allow.impersonate;
    var n := d.spec.deny.impersonate;
    && (a.Some? ==> ImpersonateValid(a.value))
    && (n.Some? ==> n.value.where == "" && ImpersonateValid(n.value))
  }

  /** What each check demands of the defaulted role. */
  ghost predicate Holds(env: Env, d: Role, c: Check) {
    match c
    case KubeCheck => KubeResourcesValid(env, d)
    case RecordingCheck => forall e :: e in d.spec.options.bpf ==> IsEnhancedRecording(e)
    case LockCheck => IsLockingMode(d.spec.options.lock)
    case WildcardCheck => WildcardsRestricted(d.spec.allow)
    case RuleCheck => RulesValid(d)
    case ImpersonateCheck => ImpersonationValid(d)
  }

  /** The source's code for each check, run on the defaulted role. */
  function StageOutcome(env: Env, d: Role, c: Check): Outcome<RoleError> {
    match c
    case KubeCheck => ValidateRoleSpecKubeResources(env.kubeResourceKinds, d.spec)
    case RecordingCheck => ValidateEnhancedRecording(d.spec.options.bpf)
    case LockCheck => ValidateLockMode(d.spec.options.lock)
    case WildcardCheck => RestrictWildcards(d.spec.allow)
    case RuleCheck => ValidateRules(d.spec)
    case ImpersonateCheck => ValidateImpersonation(d.spec)
  }

  lemma WildcardsMeaning(a: RoleConditions)
    ensures RestrictWildcards(a).Pass? <==> WildcardsRestricted(a)
  {
    WildcardSelectorOkIff(a.nodeLabels);
    WildcardSelectorOkIff(a.appLabels);
    WildcardSelectorOkIff(a.kubernetesLabels);
    WildcardSelectorOkIff(a.databaseLabels);
    WildcardSelectorOkIff(a.windowsDesktopLabels);
    WildcardSelectorOkIff(a.groupLabels);
  }

  /** Each check's code passes exactly when its declarative demand holds, and
      its errors are attributed to it. */
  lemma StageOutcomeMeaning(env: Env, d: Role, c: Check)
    ensures StageOutcome(env, d, c).Pass? <==> Holds(env, d, c)
    ensures StageOutcome(env, d, c).Fail? ==> CheckOf(StageOutcome(env, d, c).error) == Some(c)
  {
    match c
    case KubeCheck => KubeMeaning(env, d);
    case RecordingCheck => RecordingMeaning(env, d);
    case LockCheck => LockMeaning(env, d);
    case WildcardCheck => WildcardStageMeaning(env, d);
    case RuleCheck => RulesMeaning(env, d);
    case ImpersonateCheck => ImpersonationMeaning(env, d);
  }

  lemma KubeMeaning(env: Env, d: Role)
    ensures StageOutcome(env, d, KubeCheck).Pass? <==> Holds(env, d, KubeCheck)
    ensures StageOutcome(env, d, KubeCheck).Fail? ==> CheckOf(StageOutcome(env, d, KubeCheck).error) == Some(KubeCheck)
  {
  }

  lemma RecordingMeaning(env: Env, d: Role)
    ensures StageOutcome(env, d, RecordingCheck).Pass? <==> Holds(env, d, RecordingCheck)
    ensures StageOutcome(env, d, RecordingCheck).Fail? ==>
              CheckOf(StageOutcome(env, d, RecordingCheck).error) == Some(RecordingCheck)
  {
  }

  lemma LockMeaning(env: Env, d: Role)
    ensures StageOutcome(env, d, LockCheck).Pass? <==> Holds(env, d, LockCheck)
    ensures StageOutcome(env, d, LockCheck).Fail? ==> CheckOf(StageOutcome(env, d, LockCheck).error) == Some(LockCheck)
  {
  }

  lemma WildcardStageMeaning(env: Env, d: Role)
    ensures StageOutcome(env, d, WildcardCheck).Pass? <==> Holds(env, d, WildcardCheck)
    ensures StageOutcome(env, d, WildcardCheck).Fail? ==>
              CheckOf(StageOutcome(env, d, WildcardCheck).error) == Some(WildcardCheck)
  {
    WildcardsMeaning(d.spec.allow);
    WildcardErrorsAttributed(d.spec.allow);
  }

  lemma WildcardErrorsAttributed(a: RoleConditions)
    ensures RestrictWildcards(a).Fail? ==> CheckOf(RestrictWildcards(a).error) == Some(WildcardCheck)
  {
  }

  lemma RulesMeaning(env: Env, d: Role)
    ensures StageOutcome(env, d, RuleCheck).Pass? <==> Holds(env, d, RuleCheck)
    ensures StageOutcome(env, d, RuleCheck).Fail? ==> CheckOf(StageOutcome(env, d, RuleCheck).error) == Some(RuleCheck)
  {
  }

  lemma ImpersonationMeaning(env: Env, d: Role)
    ensures StageOutcome(env, d, ImpersonateCheck).Pass? <==> Holds(env, d, ImpersonateCheck)
    ensures StageOutcome(env, d, ImpersonateCheck).Fail? ==>
              CheckOf(StageOutcome(env, d, ImpersonateCheck).error) == Some(ImpersonateCheck)
  {
  }

  /** On success each check's code passed on the defaulted role, which is
      the result. */
  lemma PassesOnSuccess(env: Env, r: Role, c: Check)
    requires CheckAndSetDefaults(env, r).Success?
    ensures CheckAndSetDefaults(env, r).value == Defaulted(env, r)
    ensures StageOutcome(env, Defaulted(env, r), c).Pass?
    ensures Holds(env, Defaulted(env, r), c)
  {
    SucceedsIffAllChecksHold(env, r);
    StageOutcomeMeaning(env, Defaulted(env, r), c);
  }

  /** The defaulted role checked in order: the reference form of the source's
      interleaved defaults and checks. */
  function CheckInOrder(env: Env, d: Role): Result<Role, RoleError> {
    StageOutcome(env, d, KubeCheck)
      .Then(StageOutcome(env, d, RecordingCheck))
      .Then(StageOutcome(env, d, LockCheck))
      .Then(StageOutcome(env, d, WildcardCheck))
      .Then(StageOutcome(env, d, RuleCheck))
      .Then(StageOutcome(env, d, ImpersonateCheck))
      .ToResult(d)
  }

  /** All six checks hold exactly when each named one does. */
  lemma AllChecksIff(env: Env, d: Role)
    ensures (forall c :: Holds(env, d, c)) <==>
              Holds(env, d, KubeCheck) && Holds(env, d, RecordingCheck) && Holds(env, d, LockCheck) &&
              Holds(env, d, WildcardCheck) && Holds(env, d, RuleCheck) && Holds(env, d, ImpersonateCheck)
  {
    if Holds(env, d, KubeCheck) && Holds(env, d, RecordingCheck) && Holds(env, d, LockCheck) &&
       Holds(env, d, WildcardCheck) && Holds(env, d, RuleCheck) && Holds(env, d, ImpersonateCheck) {
      forall c ensures Holds(env, d, c) {
        match c
        case KubeCheck =>
        case RecordingCheck =>
        case LockCheck =>
        case WildcardCheck =>
        case RuleCheck =>
        case ImpersonateCheck =>
      }
    }
  }

  /** Every check's code agrees with its declarative demand. */
  lemma AllMeanings(env: Env, d: Role)
    ensures forall c :: StageOutcome(env, d, c).Pass? <==> Holds(env, d, c)
    ensures forall c :: StageOutcome(env, d, c).Fail? ==> CheckOf(StageOutcome(env, d, c).error) == Some(c)
  {
    forall c
      ensures StageOutcome(env, d, c).Pass? <==> Holds(env, d, c)
      ensures StageOutcome(env, d, c).Fail? ==> CheckOf(StageOutcome(env, d, c).error) == Some(c)
    {
      StageOutcomeMeaning(env, d, c);
    }
  }

  // ---- the source's interleaving equals "default, then check in order"

  lemma MigrationAgrees(env: Env, r2: Role)
    requires IsNormalVersion(r2.version)
    ensures MigrateVersion(env, r2) ==
              ValidateRoleSpecKubeResources(env.kubeResourceKinds, MigrationDefaults(env, r2).spec)
                .ToResult(MigrationDefaults(env, r2))
  {
  }

  lemma TailAgrees(env: Env, m: Role)
    ensures var d := CorrectSessionTTL(env, SetDenyNamespaceDefault(env, m));
            ValidateRoleSpecKubeResources(env.kubeResourceKinds, m.spec).Pass? ==>
              CheckMigrated(env, m) == CheckInOrder(env, d)
    ensures var d := CorrectSessionTTL(env, SetDenyNamespaceDefault(env, m));
            ValidateRoleSpecKubeResources(env.kubeResourceKinds, m.spec) ==
              StageOutcome(env, d, KubeCheck)
  {
    var r4 := SetDenyNamespaceDefault(env, m);
    var d := CorrectSessionTTL(env, r4);
    KubeStageAgrees(env, m);
    assert d.spec.options.bpf == r4.spec.options.bpf && d.spec.options.lock == r4.spec.options.lock;
    var recording := ValidateEnhancedRecording(r4.spec.options.bpf);
    var lock := ValidateLockMode(r4.spec.options.lock);
    var later := StageOutcome(env, d, WildcardCheck)
                   .Then(StageOutcome(env, d, RuleCheck))
                   .Then(StageOutcome(env, d, ImpersonateCheck));
    CorrectedAgrees(env, d);
    if ValidateRoleSpecKubeResources(env.kubeResourceKinds, m.spec).Pass? {
      assert CheckInOrder(env, d) == recording.Then(lock).Then(later).ToResult(d);
    }
  }

  lemma CorrectedAgrees(env: Env, d: Role)
    ensures CheckCorrected(d) ==
              StageOutcome(env, d, WildcardCheck)
                .Then(StageOutcome(env, d, RuleCheck))
                .Then(StageOutcome(env, d, ImpersonateCheck))
                .ToResult(d)
  {
  }

  lemma KubeStageAgrees(env: Env, m: Role)
    ensures var d := CorrectSessionTTL(env, SetDenyNamespaceDefault(env, m));
            ValidateRoleSpecKubeResources(env.kubeResourceKinds, m.spec) ==
              StageOutcome(env, d, KubeCheck)
  {
    var d := CorrectSessionTTL(env, SetDenyNamespaceDefault(env, m));
    assert d.spec.allow == m.spec.allow;
    assert d.spec.deny.kubernetesResources == m.spec.deny.kubernetesResources;
  }

  /** `CheckAndSetDefaults` fails on metadata, or returns the defaulted role
      checked in order. */
  lemma {:induction false} CheckAndSetDefaultsStaged(env: Env, r: Role)
    ensures CheckAndSetDefaults(env, r) ==
              if !env.metadataValid(r.metadata) then Failure(MetadataInvalid)
              else CheckInOrder(env, Defaulted(env, r))
  {
    if env.metadataValid(r.metadata) {
      var r2 := SetOptionDefaults(env, SetStaticFields(r));
      var m := MigrationDefaults(env, r2);
      MigrationAgrees(env, r2);
      TailAgrees(env, m);
    }
  }

  // ---- consequences

  /** Success exactly when the metadata is accepted and every check holds of
      the defaulted role, which is then the result. */
  lemma {:induction false} SucceedsIffAllChecksHold(env: Env, r: Role)
    ensures CheckAndSetDefaults(env, r).Success? <==>
              env.metadataValid(r.metadata) && forall c :: Holds(env, Defaulted(env, r), c)
    ensures CheckAndSetDefaults(env, r).Success? ==> CheckAndSetDefaults(env, r).value == Defaulted(env, r)
  {
    var d := Defaulted(env, r);
    CheckAndSetDefaultsStaged(env, r);
    InOrderSucceedsIff(env, d);
  }

  lemma InOrderSucceedsIff(env: Env, d: Role)
    ensures CheckInOrder(env, d).Success? <==> forall c :: Holds(env, d, c)
    ensures CheckInOrder(env, d).Success? ==> CheckInOrder(env, d).value == d
  {
    AllChecksIff(env, d);
    StageOutcomeMeaning(env, d, KubeCheck);
    StageOutcomeMeaning(env, d, RecordingCheck);
    StageOutcomeMeaning(env, d, LockCheck);
    StageOutcomeMeaning(env, d, WildcardCheck);
    StageOutcomeMeaning(env, d, RuleCheck);
    StageOutcomeMeaning(env, d, ImpersonateCheck);
  }

  /** Checking in order stops at the first check that fails. */
  lemma {:induction false} InOrderFailureIsFirst(env: Env, d: Role)
    requires CheckInOrder(env, d).Failure?
    ensures var e := CheckInOrder(env, d).error;
            && CheckOf(e).Some?
            && StageOutcome(env, d, CheckOf(e).value) == Fail(e)
            && !Holds(env, d, CheckOf(e).value)
            && forall c :: Rank(c) < Rank(CheckOf(e).value) ==> Holds(env, d, c)
  {
    StageOutcomeMeaning(env, d, KubeCheck);
    StageOutcomeMeaning(env, d, RecordingCheck);
    StageOutcomeMeaning(env, d, LockCheck);
    StageOutcomeMeaning(env, d, WildcardCheck);
    StageOutcomeMeaning(env, d, RuleCheck);
    StageOutcomeMeaning(env, d, ImpersonateCheck);
    var e := CheckInOrder(env, d).error;
    forall c | Rank(c) < Rank(CheckOf(e).value) ensures Holds(env, d, c) {
    }
  }

  /** The check aborts on the first failing check: the error names a check
      that fails on the defaulted role, and every earlier check holds. */
  lemma {:induction false} FailureNamesFirstFailingCheck(env: Env, r: Role)
    requires CheckAndSetDefaults(env, r).Failure?
    ensures var e := CheckAndSetDefaults(env, r).error;
            e == MetadataInvalid <==> !env.metadataValid(r.metadata)
    ensures var e := CheckAndSetDefaults(env, r).error;
            e != MetadataInvalid ==>
              && CheckOf(e).Some?
              && StageOutcome(env, Defaulted(env, r), CheckOf(e).value) == Fail(e)
              && !Holds(env, Defaulted(env, r), CheckOf(e).value)
              && forall c :: Rank(c) < Rank(CheckOf(e).value) ==> Holds(env, Defaulted(env, r), c)
  {
    CheckAndSetDefaultsStaged(env, r);
    if env.metadataValid(r.metadata) {
      InOrderFailureIsFirst(env, Defaulted(env, r));
    }
  }

  /** A successfully checked role passes the check again unchanged. */
  lemma {:induction false} CheckAndSetDefaultsIdempotent(env: Env, r: Role)
    requires env.WellFormed()
    requires CheckAndSetDefaults(env, r).Success?
    ensures CheckAndSetDefaults(env, CheckAndSetDefaults(env, r).value) == CheckAndSetDefaults(env, r)
  {
    var d := Defaulted(env, r);
    SucceedsIffAllChecksHold(env, r);
    DefaultedIsDefaulted(env, r);
    DefaultedFixesDefaulted(env, d);
    CheckAndSetDefaultsStaged(env, r);
    CheckAndSetDefaultsStaged(env, d);
  }
}
