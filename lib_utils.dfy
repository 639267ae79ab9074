/**
 * The helpers of the lib revision (`lib/utils.js`). `buildFullyQualifiedScope`,
 * `isTrue` and `checkScopes` are the same code as in the src revision and are
 * used from `Util`; the permission check and the missing-scope message differ.
 */
module LibUtils {
  import opened Wrappers
  import opened Http
  import Util

  /** `checkPermissions(account, wantedPermissions, requireAccount = true)` of
      the lib revision: no shortcut for an empty list, and `perms` is read as
      soon as there is an account. */
  function CheckPermissions(account: Option<Account>, wanted: seq<string>, requireAccount: Option<bool>): (r: Result<bool, Fault>)
    ensures account.None? ==> r == Ok(!Util.AccountRequired(requireAccount))
    ensures r.Err? <==> account.Some? && account.value.perms.None?
    ensures account.Some? && account.value.perms.Some? ==>
      (r == Ok(true) <==> "all" in account.value.perms.value ||
                          exists i :: 0 <= i < |wanted| && wanted[i] in account.value.perms.value)
  {
    if account.None? then Ok(!Util.AccountRequired(requireAccount))
    else if account.value.perms.None? then Err(TypeError)
    else if "all" in account.value.perms.value then Ok(true)
    else Ok(Util.AnyHeld(account.value.perms.value, wanted))
  }

  /** The two revisions agree whenever some permission is wanted; with none
      wanted, the src revision lets every account through, while the lib
      revision lets through only an account holding `all`, and throws for an
      account without `perms`. */
  lemma CheckPermissionsRevisions(account: Option<Account>, wanted: seq<string>, requireAccount: Option<bool>)
    ensures |wanted| > 0 ==>
      CheckPermissions(account, wanted, requireAccount) == Util.CheckPermissions(account, wanted, requireAccount)
    ensures |wanted| == 0 && account.Some? ==> Util.CheckPermissions(account, wanted, requireAccount) == Ok(true)
    ensures |wanted| == 0 && account.Some? && account.value.perms.Some? ==>
      CheckPermissions(account, wanted, requireAccount) == Ok("all" in account.value.perms.value)
    ensures |wanted| == 0 && account.Some? && account.value.perms.None? ==>
      CheckPermissions(account, wanted, requireAccount) == Err(TypeError)
  {
  }

  /** `buildMissingScopeMessage(name, env, scopes)`: the lead is lower case. */
  function BuildMissingScopeMessage(name: string, env: string, arg: Util.ScopeArg): string {
    Util.ScopeMessage("missing scope", name, env, arg)
  }

  /** The messages of the two revisions differ only in the case of their first letter. */
  lemma MissingScopeMessageRevisions(name: string, env: string, arg: Util.ScopeArg)
    ensures var lib := BuildMissingScopeMessage(name, env, arg);
      var src := Util.BuildMissingScopeMessage(name, env, arg);
      |lib| == |src| && lib[0] == 'm' && src[0] == 'M' && lib[1..] == src[1..]
  {
  }
}
