/** `types.KubernetesResource`: a kind/namespace/name triple that scopes a role's
    access to Kubernetes objects. */
module KubeResources {
  import opened Wrappers
  import opened SeqChecks

  datatype KubernetesResource = KubernetesResource(kind: string, namespace: string, name: string)

  datatype KubeError = UnsupportedKind(kind: string) | MissingNamespace | MissingName

  /** A resource scope the role schema accepts: a supported kind and a non-empty
      namespace and name (the wildcard `*` counts as non-empty). */
  predicate KubeResourceValid(kinds: seq<string>, k: KubernetesResource) {
    k.kind in kinds && k.namespace != "" && k.name != ""
  }

  /** One iteration of `validateKubeResources`: kind, then namespace, then name. */
  function CheckKubeResource(kinds: seq<string>, k: KubernetesResource): (o: Outcome<KubeError>)
    ensures o.Pass? <==> KubeResourceValid(kinds, k)
    ensures o == Fail(UnsupportedKind(k.kind)) <==> k.kind !in kinds
    ensures o == Fail(MissingNamespace) <==> k.kind in kinds && |k.namespace| == 0
    ensures o == Fail(MissingName) <==> k.kind in kinds && |k.namespace| > 0 && |k.name| == 0
  {
    if k.kind !in kinds then Fail(UnsupportedKind(k.kind))
    else if |k.namespace| == 0 then Fail(MissingNamespace)
    else if |k.name| == 0 then Fail(MissingName)
    else Pass
  }

  /** `validateKubeResources`: every entry must be valid; the first invalid
      entry decides the error. */
  function ValidateKubeResources(kinds: seq<string>, rs: seq<KubernetesResource>): (o: Outcome<KubeError>)
    ensures o.Pass? <==> forall k :: k in rs ==> KubeResourceValid(kinds, k)
    ensures o.Fail? ==>
              exists i :: 0 <= i < |rs| && CheckKubeResource(kinds, rs[i]) == o
                          && forall j :: 0 <= j < i ==> KubeResourceValid(kinds, rs[j])
  {
    var o := CheckAll(rs, k => CheckKubeResource(kinds, k));
    assert o.Pass? <==> forall i :: 0 <= i < |rs| ==> KubeResourceValid(kinds, rs[i]);
    o
  }

  /** `KubernetesResource.ClusterResource`: the `<namespace>/<name>` lookup key. */
  function ClusterResource(k: KubernetesResource): string {
    k.namespace + "/" + k.name
  }

  /** The key identifies the scope: two resources whose namespaces contain no
      `/` have the same key only when namespace and name both agree (a name may
      itself contain `/`). */
  lemma {:induction false} ClusterResourceInjective(a: KubernetesResource, b: KubernetesResource)
    requires '/' !in a.namespace && '/' !in b.namespace
    ensures ClusterResource(a) == ClusterResource(b) <==>
              a.namespace == b.namespace && a.name == b.name
  {
    var s, t := ClusterResource(a), ClusterResource(b);
    if s == t {
      // The first `/` of the key ends the namespace, so both namespaces have
      // the same length.
      if |a.namespace| < |b.namespace| {
        SlashEndsNamespace(a);
        assert false;
      } else if |b.namespace| < |a.namespace| {
        SlashEndsNamespace(b);
        assert false;
      }
      assert a.namespace == s[..|a.namespace|];
      assert b.namespace == t[..|b.namespace|];
      assert a.name == s[|a.namespace| + 1..];
      assert b.name == t[|b.namespace| + 1..];
    }
  }

  /** The key has `/` right after the namespace. */
  lemma SlashEndsNamespace(k: KubernetesResource)
    ensures ClusterResource(k)[|k.namespace|] == '/'
  {
  }
}
