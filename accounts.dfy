/** The caller's identity as both API handlers read it: the session and the
    `profiles` row (`role`, `tenant_id`). */
module Accounts {
  import opened Outcomes

  /** `UserRole` (lib/types.ts:4). A `null` role is read as `Rider`: both
      handlers refuse it as they refuse a rider. */
  datatype Role = Rider | Admin | SuperAdmin

  datatype Session = Session(userId: string)

  datatype Profile = Profile(role: Role, tenantId: Option<string>)

  /** `profile.tenant_id` is truthy: present and not the empty string. */
  predicate HasTenant(p: Profile) {
    p.tenantId.Some? && p.tenantId.value != ""
  }
}
