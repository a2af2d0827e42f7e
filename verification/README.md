# Role validation and defaulting

A Dafny model of the role resource of `api/types/role.go`: the `RoleImpl`
record with its allow and deny conditions and options, the
`CheckAndSetDefaults` routine that normalises kind and version, fills unset
options, migrates v3/v4/v5 roles (label defaults, the all-pods Kubernetes
scope) and then validates the result (Kubernetes resource scopes,
enhanced-recording events, lock mode, wildcard restrictions, rules,
impersonation), the rule and impersonation checks it delegates to, the
polarity-keyed getters and setters, `Labels.Clone`, `ProcessNamespace`,
`GetPrivateKeyPolicy`, `GetSessionPolicySet` and the `WhereExpr` printer.

Every operation is a pure function from a role to a `Result`: the source's
in-place mutation becomes a returned value and the first error it returns
becomes a `Failure` carrying a `RoleError` that says which check refused the
role. Values the source takes from other packages (the supported Kubernetes
kinds, `KindKubePod`, `defaults.Namespace`, `defaults.MaxCertDuration`,
`defaults.EnhancedEvents()` and the verdict of `Metadata.CheckAndSetDefaults`)
are fields of an `Env` parameter; `Env.WellFormed` states what the rest of the
system guarantees about them.

The central results:

- `RoleProperties.CheckAndSetDefaultsStaged`: the source interleaves
  defaulting and checking; the model proves this equals "apply every default
  (`Defaulted`), then run the six checks in order (`CheckInOrder`)".
- `RoleProperties.SucceedsIffAllChecksHold` and
  `RoleProperties.FailureNamesFirstFailingCheck`: success exactly when the
  metadata is accepted and all six declarative demands (`Holds`) are met by
  the defaulted role; a failure names the first check, in the source's order,
  that fails.
- `RoleProperties.CheckAndSetDefaultsIdempotent`: a checked role passes again
  unchanged.
- `RoleGuarantees.*`: the specific promises (version normalisation, v3 label
  defaults, pod-scope synthesis, option, wildcard, rule and impersonation
  checks), each stated about the input and the result of the whole check.

Where the code and the tests in `api/types/role_test.go` disagree, the model
follows the code:

- The cases at role_test.go:79-99 and role_test.go:123-137 expect a
  Kubernetes scope of kind `*`. The code keeps, or synthesises, a scope of
  kind `KindKubePod` (role.go:898-906).
- Their case names speak of v7 roles. The code stores v7 as v6
  (role.go:794-799).
- `RoleScenarios.WildcardPodScopeKept` and `RoleScenarios.V5ScopePopulated`
  state the code's behaviour for those two inputs.

## Model

| member | source | states |
|---|---|---|
| RoleCheck.CheckAndSetDefaults | api/types/role.go:818-1016 | On success the kind is `role`, v3/v4/v5 are kept and every other version is stored as v6, and the metadata is unchanged. The error is never "unrecognized version". It is the metadata error exactly when the metadata check refuses. A rule error points at the first failing rule of its polarity, with all allow rules passing before a deny rule error. A deny impersonation error is reported only when the deny `where` is empty. |
| RoleCheck.SetStaticFields | api/types/role.go:794-799 | The kind becomes `role`. v3, v4 and v5 are kept and any other version string becomes v6. Metadata and spec are untouched. |
| RoleCheck.SetOptionDefaults | api/types/role.go:826-869 | Only options and the allow namespaces change. Deny conditions and all other allow fields are kept. The values installed are stated by `RoleProperties.DefaultedOptionValues` and `RoleProperties.DefaultedNamespaces`. |
| RoleCheck.SetDenyNamespaceDefault | api/types/role.go:920-922 | Only the deny namespaces change. Options and allow conditions are kept. The value installed is stated by `RoleProperties.DefaultedNamespaces`. |
| RoleCheck.CorrectSessionTTL | api/types/role.go:943-946 | Only the session TTL option changes. Both condition sets are kept. |
| RoleCheck.MigrateVersion | api/types/role.go:871-918 | Fails with "unrecognized version" exactly for versions other than v3-v6. Its only other error is a Kubernetes resource error. On success it keeps kind, version, metadata, options, deny conditions, allow rules and allow impersonation. |
| RoleCheck.ValidateRoleSpecKubeResources | api/types/role.go:1466-1474 | Passes iff every allow and every deny scope is valid. An invalid allow scope is reported before any deny scope. |
| RoleCheck.ValidatedKube | api/types/role.go:908-915 | On success returns the role unchanged. |
| RoleCheck.ValidateEnhancedRecording | api/types/role.go:924-932 | Passes iff every entry is command, disk or network. A failure names the first entry of the list that is not one of them: every earlier entry is valid. |
| RoleCheck.ValidateLockMode | api/types/role.go:934-941 | Passes iff the mode is empty, best_effort or strict. A failure carries the mode. |
| RoleCheck.RejectWildcard | api/types/role.go:949-968 | Passes iff the list has no bare `*` entry. A failure names the list. |
| RoleCheck.CheckWildcardSelector | api/types/role.go:969-976 | Passes iff no `*` key maps to anything but `["*"]`. A failure names the label field. |
| RoleCheck.RestrictWildcardLists | api/types/role.go:949-968 | Passes iff none of logins, AWS role ARNs, Azure identities and GCP service accounts has a bare `*`. A failure names the first of them, in that order, that has one. |
| RoleCheck.RestrictSelectors | api/types/role.go:969-988 | Passes iff the node, app, Kubernetes, database, desktop and group label maps all meet the selector rule. A failure names the first of them, in that order, that breaks it. |
| RoleCheck.RestrictWildcards | api/types/role.go:948-988 | Passes iff the four allow lists have no `*` entry and the six allow label maps meet the selector rule. A list error names the first list, in the source's order, holding `*`. A selector error names the first map, in order, breaking the rule, and implies the four lists passed. |
| RoleCheck.ValidateRuleList | api/types/role.go:990-1001 | Passes iff every rule passes. A failure carries the polarity, the index of the first failing rule and that rule's own error, and every earlier rule passes. |
| RoleCheck.ValidateRules | api/types/role.go:990-1001 | Passes iff all allow and all deny rules pass. Allow rules are checked first, so a deny rule error implies every allow rule passed. |
| RoleCheck.ValidateImpersonation | api/types/role.go:1002-1014 | Passes iff the allow condition (when set) validates, and the deny condition (when set) has an empty `where` and validates. An allow error carries the allow condition's own error. Allow is checked first, so a deny `where` error or a deny validation error implies the allow condition (when set) validated. A `where` error implies a non-empty deny `where`, and a deny validation error carries the deny condition's own error with an empty `where`. |
| RoleCheck.CheckMigrated | api/types/role.go:920-1016 | Everything after the version switch. A success keeps kind, version and metadata. The error is neither the metadata nor the version error. It carries the same rule-error and deny-impersonation facts as the whole check. |
| RoleCheck.CheckCorrected | api/types/role.go:948-1016 | The checks after the TTL correction. A success returns the role unchanged. The errors come only from the wildcard, rule and impersonation checks. |
| RoleProperties.DefaultedIsDefaulted | api/types/role.go:826-946 | When the maximum certificate duration is positive and the default events are non-empty, the defaulted role has every option set, both namespace lists set, a positive TTL and non-empty events. v3 roles have their four labels set. Pre-v6 roles grant Kubernetes labels only together with a resource scope. |
| RoleProperties.OptionDefaultsFill | api/types/role.go:826-869 | Every option guarded by an "unset" test is set afterwards, and so are the allow namespaces. |
| RoleProperties.MigrationDefaultsFill | api/types/role.go:871-907 | The migration defaults keep kind, version, options, deny conditions and allow namespaces. They set the four v3 labels, and leave no pre-v6 role with Kubernetes labels but no scope. |
| RoleProperties.DefaultedFixesDefaulted | api/types/role.go:826-946 | Applying the defaults to an already defaulted role changes nothing. Each default is guarded by an "unset" test. |
| RoleProperties.DefaultedOptionValues | api/types/role.go:826-869 | An unset certificate format becomes `standard`. Unset port forwarding, desktop clipboard, directory sharing and SSH file copy become true, and unset host and desktop user creation become false. An unset recording option becomes best-effort with desktop recording on, and unset IdP options enable SAML. Every option that was set is kept, as are agent forwarding and source-IP pinning. |
| RoleProperties.DefaultedNamespaces | api/types/role.go:838-922 | Unset allow namespaces (role.go:838-840) and unset deny namespaces (role.go:920-922) become the one default namespace. Set namespace lists, empty ones included, are kept. |
| RoleProperties.DefaultedOptions | api/types/role.go:829-837 | The events are the default list only when none were given. The lock mode and MFA type are kept. The TTL is the given value when positive and the maximum certificate duration otherwise. |
| RoleProperties.DefaultedAllowFrame | api/types/role.go:838-906 | On the allow side the defaults touch only namespaces, the four v3 labels and the Kubernetes resources. From v4 on the labels are kept, and set labels are never changed. |
| RoleProperties.DefaultedDenyFrame | api/types/role.go:920-922 | On the deny side the defaults touch only the namespaces. |
| RoleProperties.DefaultedKubeResources | api/types/role.go:895-906 | A pre-v6 role that grants Kubernetes labels (after the v3 defaults) but names no resources gets exactly the all-pods scope. Every other role keeps its allow resources, and the deny resources are always kept. |
| RoleProperties.DefaultedKeepsStrings | api/types/role.go:826-946 | No default changes any string-list field of either polarity. |
| RoleProperties.DefaultedKeepsRules | api/types/role.go:826-946 | No default changes the rules of either polarity. |
| RoleProperties.Rank | api/types/role.go:908-1014 | Each check has a position in the source's check order. |
| RoleProperties.StageOutcomeMeaning | api/types/role.go:908-1014 | Each check's code passes iff its declarative demand (`Holds`) is met, and its errors are attributed to it. |
| RoleProperties.KubeMeaning | api/types/role.go:1466-1493 | The resource check passes iff every allow and deny scope has a supported kind and a non-empty namespace and name. |
| RoleProperties.RecordingMeaning | api/types/role.go:924-932 | The events check passes iff every event is known. |
| RoleProperties.LockMeaning | api/types/role.go:934-941 | The lock check passes iff the mode is known or empty. |
| RoleProperties.WildcardStageMeaning | api/types/role.go:948-988 | The wildcard check passes iff no restricted list has `*` and each restricted label map has `*` only as `["*"]`. |
| RoleProperties.WildcardsMeaning | api/types/role.go:969-988 | The key-by-key selector loop equals the one-key statement. |
| RoleProperties.WildcardErrorsAttributed | api/types/role.go:948-988 | Every error of the wildcard check is attributed to that check. |
| RoleProperties.RulesMeaning | api/types/role.go:990-1001 | The rule check passes iff every rule names a resource and a verb. |
| RoleProperties.ImpersonationMeaning | api/types/role.go:1002-1014 | The impersonation check passes iff no condition names users without roles and the deny condition has no `where`. |
| RoleProperties.AllMeanings | api/types/role.go:908-1014 | The per-check meaning holds for every check at once. |
| RoleProperties.PassesOnSuccess | api/types/role.go:818-1016 | On success each check passed on the defaulted role, which is the result. |
| RoleProperties.AllChecksIff | api/types/role.go:908-1014 | "Every check holds" is the conjunction of the six named checks. |
| RoleProperties.MigrationAgrees | api/types/role.go:871-918 | For v3-v6 the version switch is the migration defaults followed by the resource check. |
| RoleProperties.TailAgrees | api/types/role.go:920-1016 | After the version switch, the source's interleaving of the deny-namespace default, the option checks, the TTL correction and the remaining checks equals the remaining checks run in order on the defaulted role. |
| RoleProperties.CorrectedAgrees | api/types/role.go:948-1016 | The wildcard, rule and impersonation checks are the last three checks in order. |
| RoleProperties.KubeStageAgrees | api/types/role.go:908-922 | The resource check gives the same verdict before and after the later defaults. |
| RoleProperties.CheckAndSetDefaultsStaged | api/types/role.go:818-1016 | The whole routine equals a metadata check, then all defaults, then the six checks in order. |
| RoleProperties.SucceedsIffAllChecksHold | api/types/role.go:818-1016 | Success iff the metadata is accepted and all six checks hold of the defaulted role; the result is then that role. |
| RoleProperties.InOrderSucceedsIff | api/types/role.go:908-1016 | Checking in order succeeds iff every check holds, and returns the role unchanged. |
| RoleProperties.InOrderFailureIsFirst | api/types/role.go:908-1016 | A failure of the in-order check names a check that fails, with its own error, and every earlier check holds. |
| RoleProperties.FailureNamesFirstFailingCheck | api/types/role.go:818-1016 | The metadata error is reported iff the metadata is refused. Any other error is the error of the first failing check in the source's order. |
| RoleProperties.CheckAndSetDefaultsIdempotent | api/types/role.go:818-1016 | When the environment is well formed, a role that passed the check passes again and is returned unchanged. |
| RoleGuarantees.CheckedIsDefaulted | api/types/role.go:818-1016 | A successful result is the defaulted role. |
| RoleGuarantees.UnrecognizedVersionUnreachable | api/types/role.go:794-799 | After `setStaticFields` every version is v3-v6, so the "unrecognized role version" branch (role.go:916-917) is never taken. |
| RoleGuarantees.V3LabelDefaults | api/types/role.go:872-892 | For a checked v3 role, unset node labels become empty without logins and `{"*": ["*"]}` with logins. Unset app, Kubernetes and database labels become `{"*": ["*"]}`. Set labels are kept. |
| RoleGuarantees.LaterVersionsKeepLabels | api/types/role.go:871-918 | For versions other than v3 no label map of either polarity is changed. |
| RoleGuarantees.KubeResourceSynthesis | api/types/role.go:895-906 | After a successful check, a pre-v6 role granting Kubernetes labels with no resources has exactly the scope (pod kind, `*`, `*`). Any other role keeps its allow resources, and deny resources are kept. |
| RoleGuarantees.SynthesizedPodKindValidated | api/types/role.go:895-910 | When the pod kind is unsupported, such a pre-v6 role is refused, with the unsupported-kind error for the pod kind. |
| RoleGuarantees.KubeResourcesValidatedFirst | api/types/role.go:908-915 | With valid metadata, a resource error is reported iff some scope of the defaulted role is invalid. An invalid allow scope decides the error. |
| RoleGuarantees.OptionsOnSuccess | api/types/role.go:829-946 | After success every event is known and the events are the given list or, when none were given, the default list. The lock mode is kept and known. The TTL is the given one when positive and the maximum certificate duration otherwise. |
| RoleGuarantees.InvalidOptionRejected | api/types/role.go:924-941 | An unknown event or lock mode in the input always fails the check. |
| RoleGuarantees.WildcardEntryRejected | api/types/role.go:949-968 | A `*` entry in any of the four restricted allow lists fails the check. |
| RoleGuarantees.WildcardEntryCore | api/types/role.go:949-968 | When the wildcard check holds of the defaulted role, no restricted input list has a `*` entry. |
| RoleGuarantees.LoginsWildcardNamed | api/types/role.go:949-953 | A bare `*` in the allow logins makes the wildcard check fail with the logins error, whatever the other lists and maps hold. |
| RoleGuarantees.WildcardSelectorRejected | api/types/role.go:969-988 | An input label map of the six restricted ones that maps `*` to anything but `["*"]` fails the check. |
| RoleGuarantees.WildcardSelectorCore | api/types/role.go:969-988 | When the wildcard check holds of the defaulted role, every restricted input map meets the selector rule. |
| RoleGuarantees.UnrestrictedFieldsIgnored | api/types/role.go:948-988 | For a defaulted role, a `*` in a deny list and any value in the cluster or database-service labels do not change whether the check succeeds. |
| RoleGuarantees.UnrestrictedCore | api/types/role.go:948-988 | Those two changes keep the role defaulted and its metadata, and leave every check's verdict unchanged. |
| RoleGuarantees.RulesValidOnSuccess | api/types/role.go:990-1001 | After success every allow and deny rule names a resource and a verb. |
| RoleGuarantees.DenyWhereRejected | api/types/role.go:1007-1010 | A deny impersonation condition with a `where` always fails the check, and never with a deny validation error. |
| RoleGuarantees.DenyWhereCore | api/types/role.go:1007-1010 | Such a role fails the impersonation check of the defaulted role. |
| RoleGuarantees.ImpersonationValidOnSuccess | api/types/role.go:1002-1014 | After success every set impersonation condition validates, and the deny one has no `where`. |
| RoleGuarantees.SessionPolicySetOfCheckedRole | api/types/role.go:1381-1387 | The policy set of a checked role carries the role's name, a normalised version and the allow require-session policies as given. |
| Rules.CheckRule | api/types/role.go:1051-1059 | A rule passes iff it names a resource and a verb. A rule naming no resource reports the resources, and one naming a resource but no verb reports the verbs. |
| Rules.NewRule | api/types/role.go:1043-1048 | The rule covers exactly the one resource with the given verbs, and it validates iff there is a verb. |
| Rules.HasResource | api/types/role.go:1062-1069 | Returns true iff the resource is one of the rule's resources. |
| Rules.HasVerb | api/types/role.go:1072-1086 | Returns true iff the verb is listed, or the verb is read_no_secrets and read is listed. |
| Rules.ReadGrantsReadNoSecrets | api/types/role.go:1072-1086 | Listing read grants read_no_secrets. |
| Rules.ReadNoSecretsDoesNotGrantRead | api/types/role.go:1072-1086 | Without a read entry no verb list grants read, and read_no_secrets is then granted iff it is listed. |
| Rules.OtherVerbsNeedExactEntry | api/types/role.go:1072-1086 | Every verb other than read_no_secrets needs an exact entry. |
| Impersonation.CheckImpersonate | api/types/role.go:1031-1040 | Fails iff the condition names users but no roles. |
| Impersonation.CheckVersusEmpty | api/types/role.go:1026-1040 | A condition that is not empty validates, and a rejected one is empty. An empty condition is rejected iff it names users. |
| KubeResources.CheckKubeResource | api/types/role.go:1480-1493 | Passes iff the kind is supported and the namespace and name are non-empty. The kind is checked first, then the namespace, then the name, each with its own error. |
| KubeResources.ValidateKubeResources | api/types/role.go:1480-1493 | Passes iff every scope is valid. A failure is the error of some scope all of whose predecessors are valid. |
| KubeResources.ClusterResourceInjective | api/types/role.go:1497-1499 | When neither namespace contains `/`, two scopes have the same `<namespace>/<name>` key iff their namespaces and names agree. |
| LabelSets.CopyStrings | api/types/role.go:1151-1155 | The copy of a value list has the same elements in the same order. |
| LabelSets.Clone | api/types/role.go:1147-1158 | The clone is unset iff the original is, and equals it as a value. |
| LabelSets.WildcardSelectorOkIff | api/types/role.go:969-976 | The key-by-key selector rule holds iff the map is unset, has no `*` key, or maps `*` to exactly `["*"]`. |
| RoleAccessors.SetStrings | api/types/role.go:329-345 | The getter returns the stored list. Nothing else in the role changes. |
| RoleAccessors.SetNamespaces | api/types/role.go:446-462 | The getter returns the stored value, unset included. Nothing else changes. |
| RoleAccessors.SetLabels | api/types/role.go:465-479 | The getter returns the stored map, and it is unset iff the argument was. Nothing else changes. |
| RoleAccessors.SetRules | api/types/role.go:709-725 | The getter returns the stored rules. Nothing else changes. |
| RoleAccessors.SetKubeResources | api/types/role.go:368-382 | The getter returns the stored scopes. Nothing else changes. |
| RoleAccessors.SetAccessRequestConditions | api/types/role.go:404-422 | The getter returns the stored condition, which is now set. Nothing else changes. |
| RoleAccessors.SetAccessReviewConditions | api/types/role.go:425-443 | The getter returns the stored condition, which is now set. Nothing else changes. |
| RoleAccessors.SetImpersonateConditions | api/types/role.go:601-619 | The getter returns the stored condition, which is now set. Nothing else changes. |
| RoleAccessors.SetSearchAsRoles | api/types/role.go:1408-1432 | The getter returns the roles. The request condition is the previous one, or the empty one, with only search_as_roles replaced. Nothing else changes. |
| RoleAccessors.SetPreviewAsRoles | api/types/role.go:1438-1462 | The getter returns the roles. The review condition is the previous one, or the empty one, with only preview_as_roles replaced. Nothing else changes. |
| RoleAccessors.SetSessionRequirePolicies | api/types/role.go:1376-1392 | The getter returns the policies. Only the allow require-session field changes. |
| RoleAccessors.SetSessionJoinPolicies | api/types/role.go:1395-1402 | The getter returns the policies. Only the allow join-session field changes. |
| RoleAccessors.SessionPolicySetTracksRole | api/types/role.go:1381-1387 | The policy set follows the name, the version and the last require-session policies set. Join policies and deny conditions do not affect it. |
| RoleAccessors.GetPrivateKeyPolicy | api/types/role.go:782-791 | Only the two hardware-key MFA modes demand a hardware key (touch for the touch mode). Every other mode demands none. |
| RoleAccessors.StringsGetPut | api/types/role.go:329-345 | Setting a string list to its current value changes nothing. |
| RoleAccessors.StringsPutPut | api/types/role.go:329-345 | A second set of the same list overrides the first. |
| RoleAccessors.LabelsGetPut | api/types/role.go:465-479 | Setting a label map to its current value changes nothing. |
| RoleAccessors.LabelsPutPut | api/types/role.go:465-479 | A second set of the same label map overrides the first. |
| RoleAccessors.StringsSettersCommute | api/types/role.go:329-345 | Setters on different polarities commute. |
| RoleAccessors.ProcessNamespace | api/types/role.go:1328-1333 | A non-empty namespace is kept and an empty one becomes the default. The result is empty only if both are. Applying it again changes nothing. |
| RoleTypes.ConditionsExtensionality | api/types/role.go:328-816 | Condition sets that agree on every field any accessor reaches are equal. |
| WhereExprs.Render | api/types/role.go:1350-1373 | The output is empty iff no slot is usable or the literal quotes as nothing. An `and`/`or` node prints in parentheses. |
| WhereExprs.RenderEven | api/types/role.go:1350-1373 | When every field name and quoted literal is balanced, the output has as many `(` as `)`. |
| RoleScenarios.TestRoleOutcome | api/types/role_test.go:148-168 | A test role later than v3 with valid labels is accepted iff its resource scopes are valid, and is returned in its defaulted form. |
| RoleScenarios.V7UnsupportedKindRejected | api/types/role_test.go:41-56 | A v7 role with an unsupported kind is refused with the unsupported-kind error for that kind. |
| RoleScenarios.NamedPodScopeKept | api/types/role_test.go:57-78 | A v6 or v7 role with a named pod scope is accepted and stored as v6. The scope is kept and the deny side has none. |
| RoleScenarios.WildcardPodScopeKept | api/types/role.go:912-915 | A v6 role with the all-pods scope keeps that scope with its pod kind. The test at role_test.go:79-99 expects kind `*` instead. |
| RoleScenarios.V5ScopePopulated | api/types/role.go:895-906 | A v5 role with Kubernetes labels and no scope gets the pod-kind all-pods scope. The test at role_test.go:123-137 expects kind `*` instead. |
| RoleScenarios.V5WithoutLabelsKeepsNoScope | api/types/role_test.go:138-146 | A v5 role without Kubernetes labels gets no scope on either side. |

## Left out

- Wire and text encodings: `Labels.Marshal`/`Unmarshal`/`Size`, the `Bool` and `BoolOption` proto/JSON/YAML methods and `RoleImpl.String`. These belong to serialisation libraries this model does not include.
- Resource header plumbing: `NewRole`, the kind/sub-kind/name/ID/metadata/options getters and setters, and expiry (`SetExpiry`, `Expiry`). These are direct field accesses with nothing to state. The clock is not modelled.
- `Metadata.CheckAndSetDefaults` is not part of this model. Its verdict is the boolean `Env.metadataValid`, and any defaulting it does to the metadata is not modelled.
- The concrete values of `KubernetesResourcesKinds`, `KindKubePod`, `defaults.Namespace`, `defaults.MaxCertDuration` and `defaults.EnhancedEvents()` are parameters. The proofs hold for every value, under `Env.WellFormed` where stated.
- Options that `CheckAndSetDefaults` neither defaults nor checks are not modelled. The record keeps the fields role.go reads or writes, plus `forwardAgent` and `pinSourceIP`, which no step touches and the model carries unchanged.
- Nil versus empty is distinguished only for label maps and namespace lists, the two places where the source's behaviour depends on it. Other slices are plain sequences.
- The session TTL is an unbounded integer, not a 64-bit duration. The source only compares it with zero and replaces it, so no wrap-around can arise.
- The error messages (`trace.BadParameter` text) are replaced by `RoleError` constructors that identify the failing check. Some carry more than the source's message: the selector error names the label field, which the message "selector *:<val> is not supported" does not, and an impersonation error carries its polarity, which the allow-side wrap does not.
- `Labels` iteration order: the selector check loops over a map in random order. The model states the verdict and the field it names, which do not depend on the order.
- WhereExprs.Render: `%q` formatting of a literal is the parameter `quote`. Go's quoting rules are not modelled.
- RoleGuarantees.UnrestrictedFieldsIgnored: stated for a role already in defaulted form (`IsDefaulted`), not for an arbitrary input, since the defaults themselves read neither field.
- `CopyRulesSlice` and `utils.CopyStrings` are value copies in the model. Aliasing is not observable here.
- The role_test.go cases at lines 79-99 and 123-137 are not modelled as written. They expect a scope kind of `*`, and the code produces the pod kind.
