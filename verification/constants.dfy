/** Vocabulary the role schema takes from outside api/types/role.go, and the
    configuration-dependent defaults, gathered into one injected environment. */
module Constants {

  /** The wildcard matcher (`types.Wildcard`). */
  const Wildcard: string := "*"

  /** Resource kind every role is normalised to (`types.KindRole`). */
  const KindRole: string := "role"

  /** Role resource versions. */
  const V3: string := "v3"
  const V4: string := "v4"
  const V5: string := "v5"
  const V6: string := "v6"
  const V7: string := "v7"

  /** Rule verbs with the read-implies-read_no_secrets alias. */
  const VerbRead: string := "read"
  const VerbReadNoSecrets: string := "readnosecrets"

  /** Enhanced session recording event kinds (`constants.EnhancedRecording*`). */
  const EnhancedRecordingCommand: string := "command"
  const EnhancedRecordingDisk: string := "disk"
  const EnhancedRecordingNetwork: string := "network"

  /** Locking modes (`constants.LockingMode*`); the empty string means "cluster default". */
  const LockingModeBestEffort: string := "best_effort"
  const LockingModeStrict: string := "strict"

  /** Defaults written into unset options. */
  const CertificateFormatStandard: string := "standard"
  const SessionRecordingModeBestEffort: string := "best_effort"

  predicate IsEnhancedRecording(s: string) {
    s == EnhancedRecordingCommand || s == EnhancedRecordingDisk || s == EnhancedRecordingNetwork
  }

  predicate IsLockingMode(s: string) {
    s == "" || s == LockingModeBestEffort || s == LockingModeStrict
  }

  /** Role metadata; `Metadata.CheckAndSetDefaults` is not part of this model and
      is represented by the opaque check `Env.metadataValid`. */
  datatype Metadata = Metadata(name: string, namespace: string, description: string,
                               labels: map<string, string>, id: int)

  /** Values the source reads from packages outside role.go:
      - kubeResourceKinds: `KubernetesResourcesKinds`
      - kindKubePod: `KindKubePod`
      - defaultNamespace: `defaults.Namespace`
      - maxCertDuration: `defaults.MaxCertDuration`, in nanoseconds
      - enhancedEvents: `defaults.EnhancedEvents()`
      - metadataValid: whether `Metadata.CheckAndSetDefaults` accepts the metadata */
  datatype Env = Env(
    kubeResourceKinds: seq<string>,
    kindKubePod: string,
    defaultNamespace: string,
    maxCertDuration: int,
    enhancedEvents: seq<string>,
    metadataValid: Metadata -> bool)
  {
    /** What the rest of the system guarantees about these values: a positive
        maximum certificate duration and a non-empty list of valid default events. */
    predicate WellFormed() {
      && maxCertDuration > 0
      && |enhancedEvents| > 0
      && forall e :: e in enhancedEvents ==> IsEnhancedRecording(e)
    }
  }
}
