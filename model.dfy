/** The user record (internal/model/user.go). */
module Model {

  /**
   * A user. `id` is the document ID the store assigns and is not stored inside the
   * document; `role` is a plain string, as role.Role is a string type in Go.
   */
  datatype User = User(id: string, name: string, email: string, role: string)
}
