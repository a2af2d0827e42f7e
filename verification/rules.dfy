/** `types.Rule`: a set of resource kinds, the verbs granted on them, and an
    optional `where` predicate kept as its source text. */
module Rules {
  import opened Wrappers
  import opened Constants

  datatype Rule = Rule(resources: seq<string>, verbs: seq<string>, where: string, actions: seq<string>)

  datatype RuleError = MissingResources | MissingVerbs

  /** A rule names at least one resource and at least one verb. */
  predicate RuleValid(rule: Rule) {
    |rule.resources| > 0 && |rule.verbs| > 0
  }

  /** `Rule.CheckAndSetDefaults`: a rule must be valid; a rule missing both
      resources and verbs reports the resources. */
  function CheckRule(rule: Rule): (o: Outcome<RuleError>)
    ensures o.Pass? <==> RuleValid(rule)
    ensures o == Fail(MissingResources) <==> |rule.resources| == 0
    ensures o == Fail(MissingVerbs) <==> |rule.resources| > 0 && |rule.verbs| == 0
  {
    if |rule.resources| == 0 then Fail(MissingResources)
    else if |rule.verbs| == 0 then Fail(MissingVerbs)
    else Pass
  }

  /** `NewRule`: a rule over one resource kind. */
  function NewRule(resource: string, verbs: seq<string>): (rule: Rule)
    ensures rule.resources == [resource] && rule.verbs == verbs
    ensures RuleValid(rule) <==> |verbs| > 0
  {
    Rule([resource], verbs, "", [])
  }

  /** Whether a verb list grants `verb`: asking for read_no_secrets is also
      satisfied by read; every other verb needs an exact entry. */
  predicate Grants(verbs: seq<string>, verb: string) {
    if verb == VerbReadNoSecrets then VerbReadNoSecrets in verbs || VerbRead in verbs
    else verb in verbs
  }

  /** `Rule.HasResource`: exact membership, scanned in order. */
  method HasResource(rule: Rule, resource: string) returns (found: bool)
    ensures found <==> resource in rule.resources
  {
    var i := 0;
    while i < |rule.resources|
      invariant 0 <= i <= |rule.resources|
      invariant resource !in rule.resources[..i]
    {
      if rule.resources[i] == resource {
        return true;
      }
      i := i + 1;
    }
    assert rule.resources[..i] == rule.resources;
    return false;
  }

  /** `Rule.HasVerb`: the source's loop, which accepts read in place of
      read_no_secrets but never the reverse. */
  method HasVerb(rule: Rule, verb: string) returns (found: bool)
    ensures found <==> Grants(rule.verbs, verb)
  {
    var i := 0;
    while i < |rule.verbs|
      invariant 0 <= i <= |rule.verbs|
      invariant !Grants(rule.verbs[..i], verb)
    {
      var v := rule.verbs[i];
      if verb == VerbReadNoSecrets {
        if v == VerbReadNoSecrets || v == VerbRead {
          assert v in rule.verbs;
          return true;
        }
      } else if v == verb {
        assert v in rule.verbs;
        return true;
      }
      assert rule.verbs[..i + 1] == rule.verbs[..i] + [v];
      i := i + 1;
    }
    assert rule.verbs[..i] == rule.verbs;
    return false;
  }

  /** Read implies read_no_secrets. */
  lemma ReadGrantsReadNoSecrets(verbs: seq<string>)
    requires VerbRead in verbs
    ensures Grants(verbs, VerbReadNoSecrets)
  {
  }

  /** The alias runs one way only: without a read entry, no list grants read,
      whatever it says about read_no_secrets. */
  lemma ReadNoSecretsDoesNotGrantRead(verbs: seq<string>)
    requires VerbRead !in verbs
    ensures !Grants(verbs, VerbRead)
    ensures Grants(verbs, VerbReadNoSecrets) <==> VerbReadNoSecrets in verbs
  {
  }

  /** For any verb other than read_no_secrets the alias plays no part: an
      exact entry is needed. */
  lemma OtherVerbsNeedExactEntry(verbs: seq<string>, verb: string)
    requires verb != VerbReadNoSecrets
    ensures Grants(verbs, verb) <==> exists i :: 0 <= i < |verbs| && verbs[i] == verb
  {
    if verb in verbs {
      var i :| 0 <= i < |verbs| && verbs[i] == verb;
    }
  }
}
