/** The one-off back-fill migrateUserRoleToSalonUser.ts: every salon-user
    link without a role takes the role of its user; links that have one
    are left alone. The links are read once, with their user, and updated
    one at a time, which is modelled as a loop over an array of rows. */
module RoleMigration {
  import opened Wrappers

  /** A salon-user link with the role of the user it points to. */
  datatype SalonUser = SalonUser(id: string, salonId: string, userId: string, role: Option<string>, userRole: string)

  /** `su.role` is set (truthy). */
  predicate HasRole(su: SalonUser) { su.role.Some? && su.role.value != "" }

  /** One link after the migration. */
  function Filled(su: SalonUser): (r: SalonUser)
    ensures HasRole(su) ==> r == su
    ensures !HasRole(su) ==> r.role == Some(su.userRole)
    ensures r.(role := su.role) == su
  {
    if HasRole(su) then su else su.(role := Some(su.userRole))
  }

  /** The whole table after the migration. */
  function Migrated(rows: seq<SalonUser>): (r: seq<SalonUser>)
    ensures |r| == |rows|
    ensures forall i :: 0 <= i < |rows| ==> r[i] == Filled(rows[i])
  {
    seq(|rows|, i requires 0 <= i < |rows| => Filled(rows[i]))
  }

  /** Running the migration a second time changes nothing. */
  lemma MigrationIdempotent(rows: seq<SalonUser>)
    ensures Migrated(Migrated(rows)) == Migrated(rows)
  {
    assert forall i :: 0 <= i < |rows| ==> Filled(Filled(rows[i])) == Filled(rows[i]);
  }

  /** Every link ends with a role; one whose user has a role (non-empty)
      ends with a truthy role. */
  lemma MigrationFillsEveryRole(rows: seq<SalonUser>, i: nat)
    requires i < |rows|
    ensures Migrated(rows)[i].role.Some?
    ensures rows[i].userRole != "" ==> HasRole(Migrated(rows)[i])
  {
  }

  /** `main`: the loop over the links, updating each one with no role. */
  method CopyUserRoles(rows: array<SalonUser>)
    modifies rows
    ensures rows[..] == Migrated(old(rows[..]))
  {
    var i := 0;
    while i < rows.Length
      invariant 0 <= i <= rows.Length
      invariant forall k :: 0 <= k < i ==> rows[k] == Filled(old(rows[k]))
      invariant forall k :: i <= k < rows.Length ==> rows[k] == old(rows[k])
    {
      var su := rows[i];
      if !HasRole(su) {
        rows[i] := su.(role := Some(su.userRole));
      }
      i := i + 1;
    }
  }
}
