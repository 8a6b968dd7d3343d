/** Role names and the sidebar navigation tree. */
module Constants {
  import opened Types

  const RoleRRHH: string := "RRHH"
  const RoleIT: string := "IT"
  const RoleManager: string := "Manager"
  const RoleEmployee: string := "Employee"
  const RoleAdmin: string := "Admin"

  /** `Object.values(ROLES)`, in declaration order. */
  const RoleValues: seq<string> := [RoleRRHH, RoleIT, RoleManager, RoleEmployee, RoleAdmin]

  /** The department names the handlers write literally. */
  const DeptIT: string := "Informàtica"
  const DeptHR: string := "Recursos Humans"

  function Leaf(href: string, text: string, roles: Option<seq<string>>): NavItem
  {
    NavItem(href, text, false, false, None, roles)
  }

  const NavItems: seq<NavItem> := [
    Leaf("/dashboard", "Panell", None),
    Leaf("/employees", "Empleats", Some([RoleAdmin, RoleRRHH, RoleManager])),
    Leaf("/requests", "Sol·licituds", None),
    Leaf("/tasks", "Tasques", None),
    Leaf("/approvals", "Aprovacions", Some([RoleManager, RoleIT, RoleAdmin, RoleRRHH])),
    NavItem("#", "Administració", false, false, Some([
      Leaf("/admin/request-types", "Tipus de Sol·licitud", None),
      Leaf("/admin/checklist-templates", "Plantilles de Checklist", None),
      Leaf("/admin/users", "Gestió d'Usuaris", None),
      Leaf("/admin/departments", "Gestió de Departaments", None),
      Leaf("/admin/systems", "Gestió de Sistemes", None),
      Leaf("/admin/access-levels", "Nivells d'Accés", None)
    ]), Some([RoleAdmin]))
  ]
}
