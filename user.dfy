/** The server's user records: `CRMUser` (Models/User.swift), `UserCreate`, `UserResponseDTO` and `LoginRequest`. */
module Users {
  import opened Common

  datatype CRMUser = CRMUser(
    id: int,
    first_name: string,
    last_name: string,
    email: string,
    phone: string,
    note: Option<string>,
    created_at: Option<Date>,
    updated_at: Option<Date>)

  /** `fullName`: the first name, one space, the last name. */
  function FullName(u: CRMUser): (r: string)
    ensures |r| == |u.first_name| + |u.last_name| + 1
    ensures r[..|u.first_name|] == u.first_name
    ensures r[|u.first_name|] == ' '
    ensures r[|u.first_name| + 1..] == u.last_name
  {
    u.first_name + " " + u.last_name
  }

  /** When the first name has no space, the full name determines both names. */
  lemma FullNameDetermines(a: CRMUser, b: CRMUser)
    requires ' ' !in a.first_name && ' ' !in b.first_name
    requires FullName(a) == FullName(b)
    ensures a.first_name == b.first_name && a.last_name == b.last_name
  {
  }

  /** The request body of `POST /users` (Models/UserCreate.swift). */
  datatype UserCreate = UserCreate(
    first_name: string,
    last_name: string,
    email: string,
    phone: string,
    note: Option<string>,
    lead_source: Option<string>)

  /** The response of `POST /users` (Models/UserResponseDTO.swift). */
  datatype UserResponseDTO = UserResponseDTO(
    id: int,
    first_name: string,
    last_name: string,
    email: string,
    phone: string,
    note: Option<string>,
    created_at: Option<string>,
    updated_at: Option<string>)

  datatype LoginRequest = LoginRequest(username: string, password: string)
}
