/** The polarity-keyed getters and setters of `RoleImpl`, and the read-only
    projections the session and key-policy logic consume. A setter returns the
    updated role; the source's defensive copies (`utils.CopyStrings`,
    `Labels.Clone`, `CopyRulesSlice`) are value copies here. */
module RoleAccessors {
  import opened Wrappers
  import opened Constants
  import opened LabelSets
  import opened Rules
  import opened KubeResources
  import opened Impersonation
  import opened RoleTypes

  /** The frame of a setter on field `f` of polarity `p`: the other polarity,
      every other field of `p`, the options, metadata, kind and version are kept. */
  ghost predicate OnlyChanged(r: Role, r': Role, p: Polarity, f: Field) {
    && r'.kind == r.kind && r'.subKind == r.subKind && r'.version == r.version
    && r'.metadata == r.metadata && r'.spec.options == r.spec.options
    && Conditions(r', Other(p)) == Conditions(r, Other(p))
    && forall g :: g != f ==> Agree(Conditions(r', p), Conditions(r, p), g)
  }

  // ---- string lists (GetLogins/SetLogins, GetKubeGroups/SetKubeGroups, ...)

  function GetStrings(r: Role, p: Polarity, f: StringListField): seq<string> {
    StringsOf(Conditions(r, p), f)
  }

  function SetStrings(r: Role, p: Polarity, f: StringListField, v: seq<string>): (r': Role)
    ensures GetStrings(r', p, f) == v
    ensures OnlyChanged(r, r', p, StringsField(f))
  {
    WithConditions(r, p, WithStrings(Conditions(r, p), f, CopyStrings(v)))
  }

  // ---- namespaces (nil is distinguished from empty)

  function GetNamespaces(r: Role, p: Polarity): Option<seq<string>> {
    Conditions(r, p).namespaces
  }

  function SetNamespaces(r: Role, p: Polarity, v: Option<seq<string>>): (r': Role)
    ensures GetNamespaces(r', p) == v
    ensures OnlyChanged(r, r', p, NamespacesField)
  {
    var copy := match v case None => None case Some(ns) => Some(CopyStrings(ns));
    WithConditions(r, p, Conditions(r, p).(namespaces := copy))
  }

  // ---- label maps (GetNodeLabels/SetNodeLabels, ...): setters store a clone

  function GetLabels(r: Role, p: Polarity, f: LabelField): Labels {
    LabelsOf(Conditions(r, p), f)
  }

  function SetLabels(r: Role, p: Polarity, f: LabelField, l: Labels): (r': Role)
    ensures GetLabels(r', p, f) == l
    ensures GetLabels(r', p, f).None? <==> l.None?
    ensures OnlyChanged(r, r', p, LabelsField(f))
  {
    WithConditions(r, p, WithLabels(Conditions(r, p), f, Clone(l)))
  }

  // ---- rules and Kubernetes resources

  function GetRules(r: Role, p: Polarity): seq<Rule> {
    Conditions(r, p).rules
  }

  function SetRules(r: Role, p: Polarity, rules: seq<Rule>): (r': Role)
    ensures GetRules(r', p) == rules
    ensures OnlyChanged(r, r', p, RulesField)
  {
    WithConditions(r, p, Conditions(r, p).(rules := rules))
  }

  function GetKubeResources(r: Role, p: Polarity): seq<KubernetesResource> {
    Conditions(r, p).kubernetesResources
  }

  function SetKubeResources(r: Role, p: Polarity, rs: seq<KubernetesResource>): (r': Role)
    ensures GetKubeResources(r', p) == rs
    ensures OnlyChanged(r, r', p, KubeResourcesField)
  {
    WithConditions(r, p, Conditions(r, p).(kubernetesResources := rs))
  }

  // ---- optional nested conditions: an unset condition reads as the zero value

  function GetAccessRequestConditions(r: Role, p: Polarity): AccessRequestConditions {
    Conditions(r, p).request.GetOr(EmptyAccessRequest)
  }

  function SetAccessRequestConditions(r: Role, p: Polarity, c: AccessRequestConditions): (r': Role)
    ensures GetAccessRequestConditions(r', p) == c
    ensures Conditions(r', p).request.Some?
    ensures OnlyChanged(r, r', p, RequestField)
  {
    WithConditions(r, p, Conditions(r, p).(request := Some(c)))
  }

  function GetAccessReviewConditions(r: Role, p: Polarity): AccessReviewConditions {
    Conditions(r, p).reviewRequests.GetOr(EmptyAccessReview)
  }

  function SetAccessReviewConditions(r: Role, p: Polarity, c: AccessReviewConditions): (r': Role)
    ensures GetAccessReviewConditions(r', p) == c
    ensures Conditions(r', p).reviewRequests.Some?
    ensures OnlyChanged(r, r', p, ReviewField)
  {
    WithConditions(r, p, Conditions(r, p).(reviewRequests := Some(c)))
  }

  function GetImpersonateConditions(r: Role, p: Polarity): ImpersonateConditions {
    Conditions(r, p).impersonate.GetOr(EmptyImpersonate)
  }

  function SetImpersonateConditions(r: Role, p: Polarity, c: ImpersonateConditions): (r': Role)
    ensures GetImpersonateConditions(r', p) == c
    ensures Conditions(r', p).impersonate.Some?
    ensures OnlyChanged(r, r', p, ImpersonateField)
  {
    WithConditions(r, p, Conditions(r, p).(impersonate := Some(c)))
  }

  // ---- search_as_roles / preview_as_roles live inside the optional conditions

  function GetSearchAsRoles(r: Role, p: Polarity): seq<string> {
    match Conditions(r, p).request
    case None => []
    case Some(c) => c.searchAsRoles
  }

  /** Creates an empty request condition when unset, then replaces only its
      search_as_roles. */
  function SetSearchAsRoles(r: Role, p: Polarity, roles: seq<string>): (r': Role)
    ensures GetSearchAsRoles(r', p) == roles
    ensures GetAccessRequestConditions(r', p) == GetAccessRequestConditions(r, p).(searchAsRoles := roles)
    ensures OnlyChanged(r, r', p, RequestField)
  {
    var c := Conditions(r, p).request.GetOr(EmptyAccessRequest);
    WithConditions(r, p, Conditions(r, p).(request := Some(c.(searchAsRoles := roles))))
  }

  function GetPreviewAsRoles(r: Role, p: Polarity): seq<string> {
    match Conditions(r, p).reviewRequests
    case None => []
    case Some(c) => c.previewAsRoles
  }

  /** Creates an empty review condition when unset, then replaces only its
      preview_as_roles. */
  function SetPreviewAsRoles(r: Role, p: Polarity, roles: seq<string>): (r': Role)
    ensures GetPreviewAsRoles(r', p) == roles
    ensures GetAccessReviewConditions(r', p) == GetAccessReviewConditions(r, p).(previewAsRoles := roles)
    ensures OnlyChanged(r, r', p, ReviewField)
  {
    var c := Conditions(r, p).reviewRequests.GetOr(EmptyAccessReview);
    WithConditions(r, p, Conditions(r, p).(reviewRequests := Some(c.(previewAsRoles := roles))))
  }

  // ---- session policies: always read from and written to the allow side

  function GetSessionRequirePolicies(r: Role): seq<SessionRequirePolicy> {
    r.spec.allow.requireSessionJoin
  }

  function SetSessionRequirePolicies(r: Role, ps: seq<SessionRequirePolicy>): (r': Role)
    ensures GetSessionRequirePolicies(r') == ps
    ensures OnlyChanged(r, r', Allow, RequireSessionJoinField)
  {
    WithConditions(r, Allow, r.spec.allow.(requireSessionJoin := ps))
  }

  function GetSessionJoinPolicies(r: Role): seq<SessionJoinPolicy> {
    r.spec.allow.joinSessions
  }

  function SetSessionJoinPolicies(r: Role, ps: seq<SessionJoinPolicy>): (r': Role)
    ensures GetSessionJoinPolicies(r') == ps
    ensures OnlyChanged(r, r', Allow, JoinSessionsField)
  {
    WithConditions(r, Allow, r.spec.allow.(joinSessions := ps))
  }

  /** `SessionTrackerPolicySet`: what session moderation needs from a role. */
  datatype SessionTrackerPolicySet = SessionTrackerPolicySet(
    name: string, version: string, requireSessionJoin: seq<SessionRequirePolicy>)

  function GetSessionPolicySet(r: Role): SessionTrackerPolicySet {
    SessionTrackerPolicySet(r.metadata.name, r.version, r.spec.allow.requireSessionJoin)
  }

  /** The policy set reflects the role's name, its version and the require
      policies last set on it; join policies and deny conditions do not enter. */
  lemma SessionPolicySetTracksRole(r: Role, ps: seq<SessionRequirePolicy>, js: seq<SessionJoinPolicy>)
    ensures GetSessionPolicySet(SetSessionRequirePolicies(r, ps)) ==
              SessionTrackerPolicySet(r.metadata.name, r.version, ps)
    ensures GetSessionPolicySet(SetSessionJoinPolicies(r, js)) == GetSessionPolicySet(r)
    ensures GetSessionPolicySet(WithConditions(r, Deny, EmptyConditions)) == GetSessionPolicySet(r)
  {
  }

  // ---- private key policy

  /** `keys.PrivateKeyPolicy`. */
  datatype PrivateKeyPolicy = PolicyNone | PolicyHardwareKey | PolicyHardwareKeyTouch

  /** `GetPrivateKeyPolicy`: only the two hardware-key MFA modes demand a
      hardware key; every other mode (including unset) demands nothing. */
  function GetPrivateKeyPolicy(r: Role): (k: PrivateKeyPolicy)
    ensures k == PolicyHardwareKey <==> r.spec.options.requireMFAType == MFASessionAndHardwareKey
    ensures k == PolicyHardwareKeyTouch <==> r.spec.options.requireMFAType == MFAHardwareKeyTouch
    ensures k == PolicyNone <==>
              r.spec.options.requireMFAType != MFASessionAndHardwareKey &&
              r.spec.options.requireMFAType != MFAHardwareKeyTouch
  {
    match r.spec.options.requireMFAType
    case MFASessionAndHardwareKey => PolicyHardwareKey
    case MFAHardwareKeyTouch => PolicyHardwareKeyTouch
    case _ => PolicyNone
  }

  // ---- lens laws shared by every polarity setter

  /** Two roles that differ at most in one polarity's conditions, where
      those agree, are equal. */
  lemma RoleFromConditions(r: Role, r': Role, p: Polarity)
    requires r'.kind == r.kind && r'.subKind == r.subKind && r'.version == r.version
    requires r'.metadata == r.metadata && r'.spec.options == r.spec.options
    requires Conditions(r', Other(p)) == Conditions(r, Other(p))
    requires Conditions(r', p) == Conditions(r, p)
    ensures r' == r
  {
    assert r'.spec.allow == r.spec.allow && r'.spec.deny == r.spec.deny;
  }

  /** Setting a string list to its current value changes nothing. */
  lemma {:induction false} StringsGetPut(r: Role, p: Polarity, f: StringListField)
    ensures SetStrings(r, p, f, GetStrings(r, p, f)) == r
  {
    var r1 := SetStrings(r, p, f, GetStrings(r, p, f));
    ConditionsExtensionality(Conditions(r1, p), Conditions(r, p));
    RoleFromConditions(r, r1, p);
  }

  /** A second set of the same string list overrides the first. */
  lemma {:induction false} StringsPutPut(r: Role, p: Polarity, f: StringListField, v: seq<string>, w: seq<string>)
    ensures SetStrings(SetStrings(r, p, f, v), p, f, w) == SetStrings(r, p, f, w)
  {
    var r1 := SetStrings(r, p, f, v);
    var r2 := SetStrings(r1, p, f, w);
    var r3 := SetStrings(r, p, f, w);
    forall g ensures Agree(Conditions(r2, p), Conditions(r3, p), g) {
      if g != StringsField(f) {
        assert Agree(Conditions(r2, p), Conditions(r1, p), g);
        assert Agree(Conditions(r1, p), Conditions(r, p), g);
        assert Agree(Conditions(r3, p), Conditions(r, p), g);
      }
    }
    ConditionsExtensionality(Conditions(r2, p), Conditions(r3, p));
    RoleFromConditions(r3, r2, p);
  }

  /** Setting a label map to its current value changes nothing. */
  lemma {:induction false} LabelsGetPut(r: Role, p: Polarity, f: LabelField)
    ensures SetLabels(r, p, f, GetLabels(r, p, f)) == r
  {
    var r1 := SetLabels(r, p, f, GetLabels(r, p, f));
    ConditionsExtensionality(Conditions(r1, p), Conditions(r, p));
    RoleFromConditions(r, r1, p);
  }

  /** A second set of the same label map overrides the first. */
  lemma {:induction false} LabelsPutPut(r: Role, p: Polarity, f: LabelField, l: Labels, m: Labels)
    ensures SetLabels(SetLabels(r, p, f, l), p, f, m) == SetLabels(r, p, f, m)
  {
    var r1 := SetLabels(r, p, f, l);
    var r2 := SetLabels(r1, p, f, m);
    var r3 := SetLabels(r, p, f, m);
    forall g ensures Agree(Conditions(r2, p), Conditions(r3, p), g) {
      if g != LabelsField(f) {
        assert Agree(Conditions(r2, p), Conditions(r1, p), g);
        assert Agree(Conditions(r1, p), Conditions(r, p), g);
        assert Agree(Conditions(r3, p), Conditions(r, p), g);
      }
    }
    ConditionsExtensionality(Conditions(r2, p), Conditions(r3, p));
    RoleFromConditions(r3, r2, p);
  }

  /** Setters on different polarities commute. */
  lemma StringsSettersCommute(r: Role, f: StringListField, g: StringListField, v: seq<string>, w: seq<string>)
    ensures SetStrings(SetStrings(r, Allow, f, v), Deny, g, w) ==
            SetStrings(SetStrings(r, Deny, g, w), Allow, f, v)
  {
  }

  // ---- namespaces

  /** `ProcessNamespace`: an empty namespace means the default one; applying
      it to its own result changes nothing. */
  function ProcessNamespace(env: Env, namespace: string): (ns: string)
    ensures namespace != "" ==> ns == namespace
    ensures namespace == "" ==> ns == env.defaultNamespace
    ensures ns == "" <==> namespace == "" && env.defaultNamespace == ""
    ensures (if ns == "" then env.defaultNamespace else ns) == ns
  {
    if namespace == "" then env.defaultNamespace else namespace
  }
}
