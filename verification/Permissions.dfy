/** Permission modes, their ranking, and the decisions taken from it. */
module Permissions {
  import opened Prelude

  datatype Mode = ReadOnly | WorkspaceWrite | DangerFullAccess {
    function Rank(): nat {
      if ReadOnly? then 0 else if WorkspaceWrite? then 1 else 2
    }

    function AsString(): string {
      if ReadOnly? then "read-only" else if WorkspaceWrite? then "workspace-write" else "danger-full-access"
    }
  }

  predicate PermissionAllows(maxPermission: Mode, required: Mode) {
    required.Rank() <= maxPermission.Rank()
  }

  /** Full access covers everything, everything covers read-only, and every mode covers itself. */
  predicate Covers(granted: Mode, required: Mode) {
    granted == DangerFullAccess || required == ReadOnly || granted == required
  }

  lemma CoversExactly(granted: Mode, required: Mode)
    ensures granted.Rank() >= required.Rank() <==> Covers(granted, required)
    ensures PermissionAllows(granted, required) <==> Covers(granted, required)
  {
  }

  datatype Decision = Approved | Refused(reason: string)

  /** The enforcer's policy: the sandbox, and an explicit maximum that overrides it. */
  datatype EnforcerPolicy = EnforcerPolicy(sandbox: Mode, maxPermission: Option<Mode>) {
    /** `withPolicy` as a turn calls it: the sandbox becomes the maximum as well. */
    function ForSandbox(sandbox: Mode): EnforcerPolicy {
      EnforcerPolicy(sandbox, Some(sandbox))
    }

    function DecideTool(required: Mode, toolName: string): Decision {
      var maximum := maxPermission.GetOr(sandbox);
      if PermissionAllows(maximum, required) then Approved
      else if maximum == ReadOnly && required == WorkspaceWrite then
        Refused(toolName + " is disabled in read-only sandbox mode.")
      else
        Refused(toolName + " requires " + required.AsString() + " permission, but current permission is "
                + maximum.AsString() + ".")
    }
  }
}
