/** The Kubernetes resource cases of `TestRole_GetKubeResources`, stated for
    the model: a role created with a version, allow namespaces `default`,
    some Kubernetes labels and some resource scopes, then checked and
    defaulted. */
module RoleScenarios {
  import opened Wrappers
  import opened Constants
  import opened LabelSets
  import opened KubeResources
  import opened RoleTypes
  import opened RoleCheck
  import opened RoleAccessors
  import opened RoleProperties

  /** The role the test builds with `NewRoleWithVersion`. */
  function TestRole(md: Metadata, version: string, labels: Labels, rs: seq<KubernetesResource>): Role {
    var allow := EmptyConditions.(namespaces := Some(["default"]), kubernetesLabels := labels,
                                  kubernetesResources := rs);
    Role(KindRole, "", version, md, RoleSpec(EmptyOptions, allow, EmptyConditions))
  }

  /** The labels `{"*": ["*"]}` the test grants. */
  const AllKubeLabels: Labels := Some(WildcardLabels)

  /** Everything but the Kubernetes resource check holds for a test role of a
      version later than v3 whose labels meet the selector rule. */
  lemma {:induction false} OtherChecksHold(env: Env, md: Metadata, version: string, labels: Labels,
                                           rs: seq<KubernetesResource>)
    requires env.WellFormed() && version != V3 && SelectorValid(labels)
    ensures var d := Defaulted(env, TestRole(md, version, labels, rs));
            && Holds(env, d, RecordingCheck) && Holds(env, d, LockCheck) && Holds(env, d, WildcardCheck)
            && Holds(env, d, RuleCheck) && Holds(env, d, ImpersonateCheck)
  {
    var r := TestRole(md, version, labels, rs);
    var d := Defaulted(env, r);
    DefaultedOptions(env, r);
    DefaultedAllowFrame(env, r);
    DefaultedDenyFrame(env, r);
    assert d.spec.allow.logins == [] && d.spec.allow.awsRoleARNs == [];
    assert d.spec.allow.azureIdentities == [] && d.spec.allow.gcpServiceAccounts == [];
    assert d.spec.allow.rules == [] && d.spec.deny.rules == [];
    assert d.spec.allow.impersonate.None? && d.spec.deny.impersonate.None?;
  }

  /** A test role later than v3 is accepted exactly when its resource scopes
      are, and is then returned in its defaulted form. */
  lemma {:induction false} TestRoleOutcome(env: Env, md: Metadata, version: string, labels: Labels,
                                           rs: seq<KubernetesResource>)
    requires env.WellFormed() && env.metadataValid(md) && version != V3 && SelectorValid(labels)
    ensures var r := TestRole(md, version, labels, rs);
            CheckAndSetDefaults(env, r).Success? <==> KubeResourcesValid(env, Defaulted(env, r))
    ensures var r := TestRole(md, version, labels, rs);
            CheckAndSetDefaults(env, r).Success? ==> CheckAndSetDefaults(env, r).value == Defaulted(env, r)
  {
    var r := TestRole(md, version, labels, rs);
    OtherChecksHold(env, md, version, labels, rs);
    SucceedsIffAllChecksHold(env, r);
    AllChecksIff(env, Defaulted(env, r));
  }

  /** "v7 with error": an unsupported kind is refused, naming the kind. */
  lemma V7UnsupportedKindRejected(env: Env, md: Metadata)
    requires env.metadataValid(md) && "invalid resource" !in env.kubeResourceKinds
    ensures var bad := KubernetesResource("invalid resource", "test", "test");
            CheckAndSetDefaults(env, TestRole(md, V7, AllKubeLabels, [bad])) ==
              Failure(KubeResourceInvalid(UnsupportedKind("invalid resource")))
  {
    var bad := KubernetesResource("invalid resource", "test", "test");
    var r := TestRole(md, V7, AllKubeLabels, [bad]);
    CheckAndSetDefaultsStaged(env, r);
    DefaultedKubeResources(env, r);
    var kube := ValidateKubeResources(env.kubeResourceKinds, [bad]);
    assert kube == Fail(UnsupportedKind("invalid resource"));
  }

  /** "v7" and "v6 to v7 without wildcard": a supported scope with a named
      namespace and name is kept as given, and v7 is stored as v6. */
  lemma {:induction false} NamedPodScopeKept(env: Env, md: Metadata, version: string)
    requires env.WellFormed() && env.metadataValid(md) && env.kindKubePod in env.kubeResourceKinds
    requires version == V6 || version == V7
    ensures var pod := KubernetesResource(env.kindKubePod, "test", "test");
            var res := CheckAndSetDefaults(env, TestRole(md, version, AllKubeLabels, [pod]));
            && res.Success? && res.value.version == V6
            && GetKubeResources(res.value, Allow) == [pod]
            && GetKubeResources(res.value, Deny) == []
  {
    var pod := KubernetesResource(env.kindKubePod, "test", "test");
    var r := TestRole(md, version, AllKubeLabels, [pod]);
    var d := Defaulted(env, r);
    DefaultedKubeResources(env, r);
    assert d.spec.allow.kubernetesResources == [pod] && d.spec.deny.kubernetesResources == [];
    assert KubeResourcesValid(env, d);
    TestRoleOutcome(env, md, version, AllKubeLabels, [pod]);
  }

  /** "v6 to v7 with wildcard": the all-pods scope of a v6 role is kept with
      its pod kind. */
  lemma {:induction false} WildcardPodScopeKept(env: Env, md: Metadata)
    requires env.WellFormed() && env.metadataValid(md) && env.kindKubePod in env.kubeResourceKinds
    ensures var res := CheckAndSetDefaults(env, TestRole(md, V6, AllKubeLabels, [AllPods(env)]));
            && res.Success?
            && GetKubeResources(res.value, Allow) == [KubernetesResource(env.kindKubePod, Wildcard, Wildcard)]
  {
    var r := TestRole(md, V6, AllKubeLabels, [AllPods(env)]);
    var d := Defaulted(env, r);
    DefaultedKubeResources(env, r);
    assert d.spec.allow.kubernetesResources == [AllPods(env)] && d.spec.deny.kubernetesResources == [];
    assert KubeResourcesValid(env, d);
    TestRoleOutcome(env, md, V6, AllKubeLabels, [AllPods(env)]);
  }

  /** "v5 to v7: populate with defaults.": a v5 role granting Kubernetes
      labels without resources gets the all-pods scope, of the pod kind. */
  lemma {:induction false} V5ScopePopulated(env: Env, md: Metadata)
    requires env.WellFormed() && env.metadataValid(md) && env.kindKubePod in env.kubeResourceKinds
    ensures var res := CheckAndSetDefaults(env, TestRole(md, V5, AllKubeLabels, []));
            && res.Success? && res.value.version == V5
            && GetKubeResources(res.value, Allow) == [KubernetesResource(env.kindKubePod, Wildcard, Wildcard)]
            && GetKubeResources(res.value, Deny) == []
  {
    var r := TestRole(md, V5, AllKubeLabels, []);
    var d := Defaulted(env, r);
    assert Len(AllKubeLabels) == 1;
    DefaultedKubeResources(env, r);
    assert d.spec.allow.kubernetesResources == [AllPods(env)] && d.spec.deny.kubernetesResources == [];
    assert KubeResourcesValid(env, d);
    TestRoleOutcome(env, md, V5, AllKubeLabels, []);
  }

  /** "v5 to v7 without kube labels": nothing is granted, so nothing is
      synthesised. */
  lemma {:induction false} V5WithoutLabelsKeepsNoScope(env: Env, md: Metadata)
    requires env.WellFormed() && env.metadataValid(md)
    ensures var res := CheckAndSetDefaults(env, TestRole(md, V5, None, []));
            && res.Success?
            && GetKubeResources(res.value, Allow) == []
            && GetKubeResources(res.value, Deny) == []
  {
    var r := TestRole(md, V5, None, []);
    var d := Defaulted(env, r);
    DefaultedKubeResources(env, r);
    assert d.spec.allow.kubernetesResources == [] && d.spec.deny.kubernetesResources == [];
    TestRoleOutcome(env, md, V5, None, []);
  }
}
