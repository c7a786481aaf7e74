/**
 * A role and its permissions (pkg/models/db/db_role.go): `Role.ToDomain`
 * groups the names of the role's permissions by the name of the section
 * each one belongs to.
 */
module Roles {

  import opened Grouping

  /** One row of the role's section-permission join: the section's and the permission's names. */
  datatype SectionPermission = SectionPermission(section: string, permission: string)

  /** The stored role. */
  datatype Role = Role(id: string, name: string, sectionPermissions: seq<SectionPermission>)

  /** `role.Response`: the permissions as a map from section name to permission names. */
  datatype Response = Response(id: string, name: string, permissions: map<string, seq<string>>)

  function SectionOf(row: SectionPermission): string {
    row.section
  }

  function PermissionOf(row: SectionPermission): string {
    row.permission
  }

  /** `ToDomain`: the loop over the rows appending each permission name under its section (`Grouping.GroupBy`). */
  method ToDomain(r: Role) returns (resp: Response)
    ensures resp.id == r.id && resp.name == r.name
    ensures resp.permissions == GroupedBy(r.sectionPermissions, SectionOf, PermissionOf)
  {
    var permissions := GroupBy(r.sectionPermissions, SectionOf, PermissionOf);
    resp := Response(r.id, r.name, permissions);
  }

  /**
   * What the response says about the role: its sections are those of the rows,
   * a section lists the names of its rows in row order, and the lists together
   * hold one name per row.
   */
  lemma ResponseDescribesRows(r: Role, section: string, permission: string)
    ensures var m := GroupedBy(r.sectionPermissions, SectionOf, PermissionOf);
            && (section in m <==> exists i :: 0 <= i < |r.sectionPermissions| && r.sectionPermissions[i].section == section)
            && (section in m ==> m[section] == ValuesUnder(r.sectionPermissions, SectionOf, PermissionOf, section))
            && (section in m ==> (permission in m[section] <==>
                  exists i :: 0 <= i < |r.sectionPermissions| && r.sectionPermissions[i] == SectionPermission(section, permission)))
            && Total(m, KeyOrder(r.sectionPermissions, SectionOf)) == |r.sectionPermissions|
  {
    var rows := r.sectionPermissions;
    GroupedKeys(rows, SectionOf, PermissionOf, section);
    if section in GroupedBy(rows, SectionOf, PermissionOf) {
      GroupedInOrder(rows, SectionOf, PermissionOf, section);
      ValuesUnderIff(rows, SectionOf, PermissionOf, section, permission);
    }
    GroupedTotal(rows, SectionOf, PermissionOf);
  }
}
