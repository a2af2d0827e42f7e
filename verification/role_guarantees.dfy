/** Specific promises of `CheckAndSetDefaults`, each stated about the input
    role and the result of the whole check. */
module RoleGuarantees {
  import opened Wrappers
  import opened Constants
  import opened LabelSets
  import opened Rules
  import opened KubeResources
  import opened Impersonation
  import opened RoleTypes
  import opened RoleAccessors
  import opened RoleCheck
  import opened RoleProperties

  predicate IsPreV6(v: string) {
    v == V3 || v == V4 || v == V5
  }

  /** The result of a successful check is the defaulted role. */
  lemma CheckedIsDefaulted(env: Env, r: Role)
    requires CheckAndSetDefaults(env, r).Success?
    ensures CheckAndSetDefaults(env, r).value == Defaulted(env, r)
  {
    SucceedsIffAllChecksHold(env, r);
  }

  // ---- version switch

  /** Every version outside v3..v6 is rewritten to v6 before the switch, so
      the switch's "unrecognized role version" arm is dead. */
  lemma {:induction false} UnrecognizedVersionUnreachable(env: Env, r: Role)
    ensures IsNormalVersion(SetStaticFields(r).version)
    ensures forall v :: CheckAndSetDefaults(env, r) != Failure(UnrecognizedVersion(v))
  {
    var res := CheckAndSetDefaults(env, r);
    forall v ensures res != Failure(UnrecognizedVersion(v)) {
      if res.Failure? {
        assert !res.error.UnrecognizedVersion?;
      }
    }
  }

  // ---- label and resource defaults

  /** v3 roles get their unset allow labels defaulted: node labels to
      everything when there are logins and to nothing otherwise, app,
      Kubernetes and database labels to everything. Set labels are kept. */
  lemma {:induction false} V3LabelDefaults(env: Env, r: Role)
    requires r.version == V3
    requires CheckAndSetDefaults(env, r).Success?
    ensures var a0 := r.spec.allow;
            var a := CheckAndSetDefaults(env, r).value.spec.allow;
            && a.nodeLabels == (if a0.nodeLabels.Some? then a0.nodeLabels
                                else if |a0.logins| == 0 then Some(map[]) else Some(WildcardLabels))
            && a.appLabels == (if a0.appLabels.Some? then a0.appLabels else Some(WildcardLabels))
            && a.kubernetesLabels == (if a0.kubernetesLabels.Some? then a0.kubernetesLabels else Some(WildcardLabels))
            && a.databaseLabels == (if a0.databaseLabels.Some? then a0.databaseLabels else Some(WildcardLabels))
  {
    CheckedIsDefaulted(env, r);
  }

  /** From v4 on, labels are left as written: nothing is defaulted. */
  lemma {:induction false} LaterVersionsKeepLabels(env: Env, r: Role, p: Polarity, f: LabelField)
    requires r.version != V3
    requires CheckAndSetDefaults(env, r).Success?
    ensures GetLabels(CheckAndSetDefaults(env, r).value, p, f) == GetLabels(r, p, f)
  {
    CheckedIsDefaulted(env, r);
    var d := Defaulted(env, r);
    DefaultedAllowFrame(env, r);
    DefaultedDenyFrame(env, r);
    if p == Allow {
      assert d.spec.allow == r.spec.allow.(namespaces := d.spec.allow.namespaces,
                                           kubernetesResources := d.spec.allow.kubernetesResources);
    }
  }

  /** Whether the allow side grants Kubernetes labels once the v3 defaults
      have been applied. */
  predicate GrantsKubeLabels(r: Role) {
    Len(r.spec.allow.kubernetesLabels) > 0 || (r.version == V3 && r.spec.allow.kubernetesLabels.None?)
  }

  /** A pre-v6 role that grants Kubernetes labels but names no resources is
      given access to every pod; every other role keeps its resources. */
  lemma {:induction false} KubeResourceSynthesis(env: Env, r: Role)
    requires CheckAndSetDefaults(env, r).Success?
    ensures var rs := CheckAndSetDefaults(env, r).value.spec.allow.kubernetesResources;
            if IsPreV6(r.version) && |r.spec.allow.kubernetesResources| == 0 && GrantsKubeLabels(r)
            then rs == [KubernetesResource(env.kindKubePod, Wildcard, Wildcard)]
            else rs == r.spec.allow.kubernetesResources
    ensures CheckAndSetDefaults(env, r).value.spec.deny.kubernetesResources == r.spec.deny.kubernetesResources
  {
    CheckedIsDefaulted(env, r);
    DefaultedKubeResources(env, r);
  }

  /** The synthesized resource is itself validated: when the pod kind is not
      a supported kind, such a role is rejected on it. */
  lemma {:induction false} SynthesizedPodKindValidated(env: Env, r: Role)
    requires env.metadataValid(r.metadata)
    requires IsPreV6(r.version) && |r.spec.allow.kubernetesResources| == 0 && GrantsKubeLabels(r)
    requires env.kindKubePod !in env.kubeResourceKinds
    ensures CheckAndSetDefaults(env, r) == Failure(KubeResourceInvalid(UnsupportedKind(env.kindKubePod)))
  {
    var d := Defaulted(env, r);
    CheckAndSetDefaultsStaged(env, r);
    DefaultedKubeResources(env, r);
    assert d.spec.allow.kubernetesResources == [AllPods(env)];
    assert !KubeResourceValid(env.kubeResourceKinds, AllPods(env));
    assert CheckOrder[0] == KubeCheck;
    var kube := ValidateKubeResources(env.kubeResourceKinds, [AllPods(env)]);
    assert kube == Fail(UnsupportedKind(env.kindKubePod));
  }

  // ---- kube resource validation comes first

  /** An invalid resource scope is reported before any option, wildcard, rule
      or impersonation problem; an invalid allow scope is reported before an
      invalid deny scope. */
  lemma {:induction false} KubeResourcesValidatedFirst(env: Env, r: Role)
    requires env.metadataValid(r.metadata)
    ensures var res := CheckAndSetDefaults(env, r);
            !KubeResourcesValid(env, Defaulted(env, r)) <==> res.Failure? && res.error.KubeResourceInvalid?
    ensures var res := CheckAndSetDefaults(env, r);
            var rs := Defaulted(env, r).spec.allow.kubernetesResources;
            (exists k :: k in rs && !KubeResourceValid(env.kubeResourceKinds, k)) ==>
              res.Failure? && ValidateKubeResources(env.kubeResourceKinds, rs) == Fail(res.error.kubeError)
  {
    var d := Defaulted(env, r);
    CheckAndSetDefaultsStaged(env, r);
    KubeMeaning(env, d);
    assert CheckOrder[0] == KubeCheck;
    var kube := StageOutcome(env, d, KubeCheck);
    if kube.Fail? {
      assert CheckInOrder(env, d) == Failure(kube.error);
    } else {
      var res := CheckAndSetDefaults(env, r);
      if res.Failure? {
        FailureNamesFirstFailingCheck(env, r);
        assert CheckOf(res.error) != Some(KubeCheck);
      }
    }
  }

  // ---- option validation

  /** After a successful check every enhanced-recording entry is a known
      event, the lock mode is empty or known, and the session TTL is the
      given one when positive and the maximum certificate duration otherwise. */
  lemma {:induction false} OptionsOnSuccess(env: Env, r: Role)
    requires CheckAndSetDefaults(env, r).Success?
    ensures var o := CheckAndSetDefaults(env, r).value.spec.options;
            && (forall e :: e in o.bpf ==> IsEnhancedRecording(e))
            && o.bpf == (if |r.spec.options.bpf| == 0 then env.enhancedEvents else r.spec.options.bpf)
            && IsLockingMode(o.lock) && o.lock == r.spec.options.lock
            && o.maxSessionTTL == (if r.spec.options.maxSessionTTL > 0 then r.spec.options.maxSessionTTL
                                   else env.maxCertDuration)
  {
    PassesOnSuccess(env, r, RecordingCheck);
    PassesOnSuccess(env, r, LockCheck);
    DefaultedOptions(env, r);
  }

  /** An unknown enhanced-recording entry or lock mode in the input is
      always rejected (a given recording list is kept as written). */
  lemma {:induction false} InvalidOptionRejected(env: Env, r: Role)
    requires (exists e :: e in r.spec.options.bpf && !IsEnhancedRecording(e)) || !IsLockingMode(r.spec.options.lock)
    ensures CheckAndSetDefaults(env, r).Failure?
  {
    if CheckAndSetDefaults(env, r).Success? {
      OptionsOnSuccess(env, r);
    }
  }

  // ---- wildcard restrictions

  /** A wildcard entry in the allow logins, AWS role ARNs, Azure identities
      or GCP service accounts is always rejected. */
  lemma {:induction false} WildcardEntryRejected(env: Env, r: Role, f: StringListField)
    requires f in WildcardCheckedLists
    requires Wildcard in GetStrings(r, Allow, f)
    ensures CheckAndSetDefaults(env, r).Failure?
  {
    if CheckAndSetDefaults(env, r).Success? {
      PassesOnSuccess(env, r, WildcardCheck);
      WildcardEntryCore(env, r, f);
      assert false;
    }
  }

  lemma WildcardEntryCore(env: Env, r: Role, f: StringListField)
    requires f in WildcardCheckedLists
    requires Holds(env, Defaulted(env, r), WildcardCheck)
    ensures Wildcard !in GetStrings(r, Allow, f)
  {
    DefaultedKeepsStrings(env, r, f);
  }

  /** Logins are checked first, so a bare `*` among them is always reported
      as a logins error. */
  lemma {:induction false} LoginsWildcardNamed(c: RoleConditions)
    requires Wildcard in c.logins
    ensures RestrictWildcards(c) == Fail(WildcardNotAllowed(Logins))
  {
    var o := RestrictWildcards(c);
    assert o.Fail? && o.error.WildcardNotAllowed?;
    var i :| 0 <= i < |WildcardCheckedLists| && WildcardCheckedLists[i] == o.error.list
             && Wildcard in StringsOf(c, o.error.list)
             && forall j :: 0 <= j < i ==> Wildcard !in StringsOf(c, WildcardCheckedLists[j]);
    assert i == 0;
  }

  /** A `*` key selecting anything but `*` in one of the six checked allow
      label maps is always rejected. */
  lemma {:induction false} WildcardSelectorRejected(env: Env, r: Role, f: LabelField)
    requires f in SelectorCheckedLabels
    requires !SelectorValid(GetLabels(r, Allow, f))
    ensures CheckAndSetDefaults(env, r).Failure?
  {
    if CheckAndSetDefaults(env, r).Success? {
      PassesOnSuccess(env, r, WildcardCheck);
      WildcardSelectorCore(env, r, f);
      assert false;
    }
  }

  lemma WildcardSelectorCore(env: Env, r: Role, f: LabelField)
    requires f in SelectorCheckedLabels
    requires Holds(env, Defaulted(env, r), WildcardCheck)
    ensures SelectorValid(GetLabels(r, Allow, f))
  {
    var d := Defaulted(env, r);
    DefaultedAllowFrame(env, r);
    // A set map is never replaced by a default, and an unset one passes.
    if GetLabels(r, Allow, f).Some? {
      assert LabelsOf(d.spec.allow, f) == LabelsOf(r.spec.allow, f);
    }
  }

  /** Only the allow side is restricted: in a defaulted role, a wildcard in
      any deny list, and any cluster or database-service label map, leave
      the verdict unchanged. */
  lemma {:induction false} UnrestrictedFieldsIgnored(env: Env, d: Role, f: StringListField, l: Labels, g: LabelField)
    requires IsDefaulted(d)
    requires g == ClusterLabels || g == DatabaseServiceLabels
    ensures var d' := SetLabels(SetStrings(d, Deny, f, [Wildcard]), Allow, g, l);
            CheckAndSetDefaults(env, d').Success? <==> CheckAndSetDefaults(env, d).Success?
  {
    var d' := SetLabels(SetStrings(d, Deny, f, [Wildcard]), Allow, g, l);
    UnrestrictedCore(env, d, f, l, g);
    DefaultedFixesDefaulted(env, d);
    DefaultedFixesDefaulted(env, d');
    SucceedsIffAllChecksHold(env, d);
    SucceedsIffAllChecksHold(env, d');
  }

  lemma {:induction false} UnrestrictedCore(env: Env, d: Role, f: StringListField, l: Labels, g: LabelField)
    requires IsDefaulted(d)
    requires g == ClusterLabels || g == DatabaseServiceLabels
    ensures var d' := SetLabels(SetStrings(d, Deny, f, [Wildcard]), Allow, g, l);
            && IsDefaulted(d') && d'.metadata == d.metadata
            && forall c :: Holds(env, d, c) <==> Holds(env, d', c)
  {
    var d1 := SetStrings(d, Deny, f, [Wildcard]);
    var d' := SetLabels(d1, Allow, g, l);
    assert Agree(Conditions(d1, Deny), Conditions(d, Deny), KubeResourcesField);
    assert Agree(Conditions(d1, Deny), Conditions(d, Deny), RulesField);
    assert Agree(Conditions(d1, Deny), Conditions(d, Deny), ImpersonateField);
    assert Agree(Conditions(d1, Deny), Conditions(d, Deny), NamespacesField);
    var a, a' := d.spec.allow, d'.spec.allow;
    assert a' == (if g == ClusterLabels then a.(clusterLabels := l) else a.(databaseServiceLabels := l));
    forall c ensures Holds(env, d, c) <==> Holds(env, d', c) {
    }
  }

  // ---- rules

  /** A checked role's rules all name resources and verbs. */
  lemma {:induction false} RulesValidOnSuccess(env: Env, r: Role)
    requires CheckAndSetDefaults(env, r).Success?
    ensures forall rule :: rule in GetRules(CheckAndSetDefaults(env, r).value, Allow) ==> RuleValid(rule)
    ensures forall rule :: rule in GetRules(CheckAndSetDefaults(env, r).value, Deny) ==> RuleValid(rule)
  {
    PassesOnSuccess(env, r, RuleCheck);
  }

  // ---- impersonation

  /** A deny impersonation with a `where` is refused outright, before its
      users and roles are looked at: the role never passes, and its error is
      never the deny validation error. */
  lemma {:induction false} DenyWhereRejected(env: Env, r: Role)
    requires r.spec.deny.impersonate.Some? && r.spec.deny.impersonate.value.where != ""
    ensures CheckAndSetDefaults(env, r).Failure?
    ensures var res := CheckAndSetDefaults(env, r);
            !(res.error.ImpersonateInvalid? && res.error.polarity == Deny)
  {
    DenyWhereCore(env, r);
    SucceedsIffAllChecksHold(env, r);
  }

  lemma DenyWhereCore(env: Env, r: Role)
    requires r.spec.deny.impersonate.Some? && r.spec.deny.impersonate.value.where != ""
    ensures !Holds(env, Defaulted(env, r), ImpersonateCheck)
    ensures StageOutcome(env, Defaulted(env, r), ImpersonateCheck).Fail?
    ensures var e := StageOutcome(env, Defaulted(env, r), ImpersonateCheck).error;
            !(e.ImpersonateInvalid? && e.polarity == Deny)
  {
    var d := Defaulted(env, r);
    DefaultedDenyFrame(env, r);
    assert d.spec.deny.impersonate == r.spec.deny.impersonate;
  }

  /** A checked role names roles wherever its impersonation names users. */
  lemma {:induction false} ImpersonationValidOnSuccess(env: Env, r: Role, p: Polarity)
    requires CheckAndSetDefaults(env, r).Success?
    ensures var c := Conditions(CheckAndSetDefaults(env, r).value, p).impersonate;
            c.Some? ==> CheckImpersonate(c.value).Pass? && (p == Deny ==> c.value.where == "")
  {
    PassesOnSuccess(env, r, ImpersonateCheck);
  }

  // ---- session tracking

  /** The policy set of a checked role carries its name and a supported
      version. */
  lemma {:induction false} SessionPolicySetOfCheckedRole(env: Env, r: Role)
    requires CheckAndSetDefaults(env, r).Success?
    ensures var s := GetSessionPolicySet(CheckAndSetDefaults(env, r).value);
            s.name == r.metadata.name && IsNormalVersion(s.version)
            && s.requireSessionJoin == r.spec.allow.requireSessionJoin
  {
    CheckedIsDefaulted(env, r);
  }
}
