/** `types.ImpersonateConditions`: which users and roles a role may (or may not)
    impersonate, with an optional `where` predicate kept as its source text. */
module Impersonation {
  import opened Wrappers

  datatype ImpersonateConditions = ImpersonateConditions(users: seq<string>, roles: seq<string>, where: string)

  /** The zero value the polarity getter returns for an unset condition. */
  const EmptyImpersonate: ImpersonateConditions := ImpersonateConditions([], [], "")

  datatype ImpersonateError = UsersWithoutRoles

  /** `ImpersonateConditions.IsEmpty`: a condition grants nothing unless it
      names both users and roles, so it is empty when EITHER list is empty. */
  predicate IsEmpty(c: ImpersonateConditions) {
    |c.users| == 0 || |c.roles| == 0
  }

  /** A condition that names users also names roles. */
  predicate ImpersonateValid(c: ImpersonateConditions) {
    |c.users| == 0 || |c.roles| > 0
  }

  /** `ImpersonateConditions.CheckAndSetDefaults`: users without roles is a
      misconfiguration; roles without users is accepted. */
  function CheckImpersonate(c: ImpersonateConditions): (o: Outcome<ImpersonateError>)
    ensures o.Pass? <==> ImpersonateValid(c)
    ensures o.Fail? <==> |c.users| > 0 && |c.roles| == 0
  {
    if |c.users| != 0 && |c.roles| == 0 then Fail(UsersWithoutRoles) else Pass
  }

  /** Validation and emptiness agree on non-empty conditions: a condition that
      names both users and roles always validates, a rejected one is empty, and
      an empty one is rejected exactly when it names users. */
  lemma CheckVersusEmpty(c: ImpersonateConditions)
    ensures !IsEmpty(c) ==> CheckImpersonate(c).Pass?
    ensures CheckImpersonate(c).Fail? ==> IsEmpty(c)
    ensures IsEmpty(c) ==> (CheckImpersonate(c).Fail? <==> |c.users| > 0)
  {
  }
}
