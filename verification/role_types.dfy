/** The role resource (`RoleImpl` / `RoleSpecV6`): metadata, options and one
    condition set per polarity. Values are immutable; setters return a new role. */
module RoleTypes {
  import opened Wrappers
  import opened Constants
  import opened LabelSets
  import opened Rules
  import opened KubeResources
  import opened Impersonation

  /** `RoleConditionType`: whether a condition set grants or restricts access. */
  datatype Polarity = Allow | Deny

  function Other(p: Polarity): (q: Polarity)
    ensures q != p
  {
    if p == Allow then Deny else Allow
  }

  datatype RequireMFAType = MFAOff | MFASession | MFASessionAndHardwareKey | MFAHardwareKeyTouch

  datatype RecordSession = RecordSession(desktop: Option<bool>, default: string, ssh: string)

  datatype IdPSAMLOptions = IdPSAMLOptions(enabled: Option<bool>)

  datatype IdPOptions = IdPOptions(saml: Option<IdPSAMLOptions>)

  /** Role options. A `*BoolOption` is an `Option<bool>` (nil is unset); the
      session TTL is a duration in nanoseconds. */
  datatype RoleOptions = RoleOptions(
    forwardAgent: bool,
    maxSessionTTL: int,
    portForwarding: Option<bool>,
    certificateFormat: string,
    bpf: seq<string>,
    requireMFAType: RequireMFAType,
    lock: string,
    recordSession: Option<RecordSession>,
    desktopClipboard: Option<bool>,
    desktopDirectorySharing: Option<bool>,
    createHostUser: Option<bool>,
    pinSourceIP: bool,
    sshFileCopy: Option<bool>,
    createDesktopUser: Option<bool>,
    idp: Option<IdPOptions>)

  datatype AccessRequestConditions = AccessRequestConditions(
    roles: seq<string>, suggestedReviewers: seq<string>, searchAsRoles: seq<string>)

  const EmptyAccessRequest: AccessRequestConditions := AccessRequestConditions([], [], [])

  datatype AccessReviewConditions = AccessReviewConditions(
    roles: seq<string>, where: string, previewAsRoles: seq<string>)

  const EmptyAccessReview: AccessReviewConditions := AccessReviewConditions([], "", [])

  datatype SessionRequirePolicy = SessionRequirePolicy(
    name: string, filter: string, kinds: seq<string>, count: int, modes: seq<string>, onLeave: string)

  datatype SessionJoinPolicy = SessionJoinPolicy(
    name: string, roles: seq<string>, kinds: seq<string>, modes: seq<string>)

  /** `RoleConditions`: everything one polarity grants or denies. */
  datatype RoleConditions = RoleConditions(
    logins: seq<string>,
    namespaces: Option<seq<string>>,
    nodeLabels: Labels,
    rules: seq<Rule>,
    kubeGroups: seq<string>,
    request: Option<AccessRequestConditions>,
    kubeUsers: seq<string>,
    appLabels: Labels,
    clusterLabels: Labels,
    kubernetesLabels: Labels,
    databaseLabels: Labels,
    databaseNames: seq<string>,
    databaseUsers: seq<string>,
    impersonate: Option<ImpersonateConditions>,
    reviewRequests: Option<AccessReviewConditions>,
    awsRoleARNs: seq<string>,
    windowsDesktopLogins: seq<string>,
    windowsDesktopLabels: Labels,
    requireSessionJoin: seq<SessionRequirePolicy>,
    joinSessions: seq<SessionJoinPolicy>,
    hostGroups: seq<string>,
    hostSudoers: seq<string>,
    azureIdentities: seq<string>,
    kubernetesResources: seq<KubernetesResource>,
    gcpServiceAccounts: seq<string>,
    databaseServiceLabels: Labels,
    groupLabels: Labels,
    desktopGroups: seq<string>)

  datatype RoleSpec = RoleSpec(options: RoleOptions, allow: RoleConditions, deny: RoleConditions)

  datatype Role = Role(kind: string, subKind: string, version: string, metadata: Metadata, spec: RoleSpec)

  /** The conditions of one polarity. */
  function Conditions(r: Role, p: Polarity): RoleConditions {
    if p == Allow then r.spec.allow else r.spec.deny
  }

  /** Replaces the conditions of one polarity. */
  function WithConditions(r: Role, p: Polarity, c: RoleConditions): (r': Role)
    ensures Conditions(r', p) == c
    ensures Conditions(r', Other(p)) == Conditions(r, Other(p))
    ensures r'.kind == r.kind && r'.subKind == r.subKind && r'.version == r.version
    ensures r'.metadata == r.metadata && r'.spec.options == r.spec.options
  {
    if p == Allow then r.(spec := r.spec.(allow := c)) else r.(spec := r.spec.(deny := c))
  }

  /** The plain string-list fields of a condition set. */
  datatype StringListField =
    | Logins | KubeGroups | KubeUsers | DatabaseNames | DatabaseUsers | AWSRoleARNs
    | AzureIdentities | GCPServiceAccounts | WindowsDesktopLogins | HostGroups
    | DesktopGroups | HostSudoers

  /** The label-map fields of a condition set. */
  datatype LabelField =
    | NodeLabels | AppLabels | ClusterLabels | KubernetesLabels | DatabaseLabels
    | DatabaseServiceLabels | WindowsDesktopLabels | GroupLabels

  /** Every field of a condition set, for stating what a setter leaves alone. */
  datatype Field =
    | StringsField(s: StringListField)
    | LabelsField(l: LabelField)
    | NamespacesField | RulesField | KubeResourcesField | RequestField | ReviewField
    | ImpersonateField | RequireSessionJoinField | JoinSessionsField

  function StringsOf(c: RoleConditions, f: StringListField): seq<string> {
    match f
    case Logins => c.logins
    case KubeGroups => c.kubeGroups
    case KubeUsers => c.kubeUsers
    case DatabaseNames => c.databaseNames
    case DatabaseUsers => c.databaseUsers
    case AWSRoleARNs => c.awsRoleARNs
    case AzureIdentities => c.azureIdentities
    case GCPServiceAccounts => c.gcpServiceAccounts
    case WindowsDesktopLogins => c.windowsDesktopLogins
    case HostGroups => c.hostGroups
    case DesktopGroups => c.desktopGroups
    case HostSudoers => c.hostSudoers
  }

  function WithStrings(c: RoleConditions, f: StringListField, v: seq<string>): (c': RoleConditions)
    ensures StringsOf(c', f) == v
    ensures forall g :: g != StringsField(f) ==> Agree(c', c, g)
  {
    match f
    case Logins => c.(logins := v)
    case KubeGroups => c.(kubeGroups := v)
    case KubeUsers => c.(kubeUsers := v)
    case DatabaseNames => c.(databaseNames := v)
    case DatabaseUsers => c.(databaseUsers := v)
    case AWSRoleARNs => c.(awsRoleARNs := v)
    case AzureIdentities => c.(azureIdentities := v)
    case GCPServiceAccounts => c.(gcpServiceAccounts := v)
    case WindowsDesktopLogins => c.(windowsDesktopLogins := v)
    case HostGroups => c.(hostGroups := v)
    case DesktopGroups => c.(desktopGroups := v)
    case HostSudoers => c.(hostSudoers := v)
  }

  function LabelsOf(c: RoleConditions, f: LabelField): Labels {
    match f
    case NodeLabels => c.nodeLabels
    case AppLabels => c.appLabels
    case ClusterLabels => c.clusterLabels
    case KubernetesLabels => c.kubernetesLabels
    case DatabaseLabels => c.databaseLabels
    case DatabaseServiceLabels => c.databaseServiceLabels
    case WindowsDesktopLabels => c.windowsDesktopLabels
    case GroupLabels => c.groupLabels
  }

  function WithLabels(c: RoleConditions, f: LabelField, l: Labels): (c': RoleConditions)
    ensures LabelsOf(c', f) == l
    ensures forall g :: g != LabelsField(f) ==> Agree(c', c, g)
  {
    match f
    case NodeLabels => c.(nodeLabels := l)
    case AppLabels => c.(appLabels := l)
    case ClusterLabels => c.(clusterLabels := l)
    case KubernetesLabels => c.(kubernetesLabels := l)
    case DatabaseLabels => c.(databaseLabels := l)
    case DatabaseServiceLabels => c.(databaseServiceLabels := l)
    case WindowsDesktopLabels => c.(windowsDesktopLabels := l)
    case GroupLabels => c.(groupLabels := l)
  }

  /** Whether two condition sets hold the same value in field `f`. */
  predicate Agree(a: RoleConditions, b: RoleConditions, f: Field) {
    match f
    case StringsField(s) => StringsOf(a, s) == StringsOf(b, s)
    case LabelsField(l) => LabelsOf(a, l) == LabelsOf(b, l)
    case NamespacesField => a.namespaces == b.namespaces
    case RulesField => a.rules == b.rules
    case KubeResourcesField => a.kubernetesResources == b.kubernetesResources
    case RequestField => a.request == b.request
    case ReviewField => a.reviewRequests == b.reviewRequests
    case ImpersonateField => a.impersonate == b.impersonate
    case RequireSessionJoinField => a.requireSessionJoin == b.requireSessionJoin
    case JoinSessionsField => a.joinSessions == b.joinSessions
  }

  /** `Field` enumerates every field: condition sets that agree on all of them
      are equal. */
  lemma {:induction false} ConditionsExtensionality(a: RoleConditions, b: RoleConditions)
    requires forall f :: Agree(a, b, f)
    ensures a == b
  {
    StringListsAgree(a, b);
    LabelMapsAgree(a, b);
    OtherFieldsAgree(a, b);
  }

  lemma {:induction false} StringListsAgree(a: RoleConditions, b: RoleConditions)
    requires forall f :: Agree(a, b, f)
    ensures a.logins == b.logins && a.kubeGroups == b.kubeGroups && a.kubeUsers == b.kubeUsers
            && a.databaseNames == b.databaseNames && a.databaseUsers == b.databaseUsers
            && a.awsRoleARNs == b.awsRoleARNs && a.azureIdentities == b.azureIdentities
            && a.gcpServiceAccounts == b.gcpServiceAccounts && a.windowsDesktopLogins == b.windowsDesktopLogins
            && a.hostGroups == b.hostGroups && a.desktopGroups == b.desktopGroups && a.hostSudoers == b.hostSudoers
  {
    assert a.logins == b.logins by { assert Agree(a, b, StringsField(Logins)); }
    assert a.kubeGroups == b.kubeGroups by { assert Agree(a, b, StringsField(KubeGroups)); }
    assert a.kubeUsers == b.kubeUsers by { assert Agree(a, b, StringsField(KubeUsers)); }
    assert a.databaseNames == b.databaseNames by { assert Agree(a, b, StringsField(DatabaseNames)); }
    assert a.databaseUsers == b.databaseUsers by { assert Agree(a, b, StringsField(DatabaseUsers)); }
    assert a.awsRoleARNs == b.awsRoleARNs by { assert Agree(a, b, StringsField(AWSRoleARNs)); }
    assert a.azureIdentities == b.azureIdentities by { assert Agree(a, b, StringsField(AzureIdentities)); }
    assert a.gcpServiceAccounts == b.gcpServiceAccounts by { assert Agree(a, b, StringsField(GCPServiceAccounts)); }
    assert a.windowsDesktopLogins == b.windowsDesktopLogins by { assert Agree(a, b, StringsField(WindowsDesktopLogins)); }
    assert a.hostGroups == b.hostGroups by { assert Agree(a, b, StringsField(HostGroups)); }
    assert a.desktopGroups == b.desktopGroups by { assert Agree(a, b, StringsField(DesktopGroups)); }
    assert a.hostSudoers == b.hostSudoers by { assert Agree(a, b, StringsField(HostSudoers)); }
  }

  lemma {:induction false} LabelMapsAgree(a: RoleConditions, b: RoleConditions)
    requires forall f :: Agree(a, b, f)
    ensures a.nodeLabels == b.nodeLabels && a.appLabels == b.appLabels && a.clusterLabels == b.clusterLabels
            && a.kubernetesLabels == b.kubernetesLabels && a.databaseLabels == b.databaseLabels
            && a.databaseServiceLabels == b.databaseServiceLabels
            && a.windowsDesktopLabels == b.windowsDesktopLabels && a.groupLabels == b.groupLabels
  {
    assert a.nodeLabels == b.nodeLabels by { assert Agree(a, b, LabelsField(NodeLabels)); }
    assert a.appLabels == b.appLabels by { assert Agree(a, b, LabelsField(AppLabels)); }
    assert a.clusterLabels == b.clusterLabels by { assert Agree(a, b, LabelsField(ClusterLabels)); }
    assert a.kubernetesLabels == b.kubernetesLabels by { assert Agree(a, b, LabelsField(KubernetesLabels)); }
    assert a.databaseLabels == b.databaseLabels by { assert Agree(a, b, LabelsField(DatabaseLabels)); }
    assert a.databaseServiceLabels == b.databaseServiceLabels by { assert Agree(a, b, LabelsField(DatabaseServiceLabels)); }
    assert a.windowsDesktopLabels == b.windowsDesktopLabels by { assert Agree(a, b, LabelsField(WindowsDesktopLabels)); }
    assert a.groupLabels == b.groupLabels by { assert Agree(a, b, LabelsField(GroupLabels)); }
  }

  lemma {:induction false} OtherFieldsAgree(a: RoleConditions, b: RoleConditions)
    requires forall f :: Agree(a, b, f)
    ensures a.namespaces == b.namespaces && a.rules == b.rules && a.kubernetesResources == b.kubernetesResources
            && a.request == b.request && a.reviewRequests == b.reviewRequests && a.impersonate == b.impersonate
            && a.requireSessionJoin == b.requireSessionJoin && a.joinSessions == b.joinSessions
  {
    assert a.namespaces == b.namespaces by { assert Agree(a, b, NamespacesField); }
    assert a.rules == b.rules by { assert Agree(a, b, RulesField); }
    assert a.kubernetesResources == b.kubernetesResources by { assert Agree(a, b, KubeResourcesField); }
    assert a.request == b.request by { assert Agree(a, b, RequestField); }
    assert a.reviewRequests == b.reviewRequests by { assert Agree(a, b, ReviewField); }
    assert a.impersonate == b.impersonate by { assert Agree(a, b, ImpersonateField); }
    assert a.requireSessionJoin == b.requireSessionJoin by { assert Agree(a, b, RequireSessionJoinField); }
    assert a.joinSessions == b.joinSessions by { assert Agree(a, b, JoinSessionsField); }
  }

  /** A condition set with every field unset or empty. */
  const EmptyConditions: RoleConditions := RoleConditions(
    [], None, None, [], [], None, [], None, None, None, None, [], [], None, None, [], [], None,
    [], [], [], [], [], [], [], None, None, [])

  /** Options with every field unset or zero. */
  const EmptyOptions: RoleOptions := RoleOptions(
    false, 0, None, "", [], MFAOff, "", None, None, None, None, false, None, None, None)
}
