/**
 * The user service (internal/service/user_service.go): the role rules of the
 * two registration paths, login, and pass-through reads over the user store.
 */
module Service {
  import opened Outcomes
  import opened ApiErrors
  import opened Model
  import Roles
  import Auth
  import opened Repository

  const InvalidRole := NewBadRequestError("Invalid role specified")
  const TokenFailed := NewInternalServerError("Failed to generate authentication token")

  /** Public registration's rule: the role becomes "user" whatever the client sent; nothing else changes. */
  function PublicRegistration(u: User): (v: User)
    ensures v.role == Roles.Name(Roles.User) && Roles.IsValid(v.role)
    ensures v.id == u.id && v.name == u.name && v.email == u.email
  {
    u.(role := Roles.Name(Roles.User))
  }

  /**
   * Admin registration's rule: an empty role defaults to "user", a valid role is
   * kept, and any other role is a bad request.
   */
  function AdminRegistration(u: User): (r: Result<User, APIError>)
    ensures r.Ok? <==> u.role == "" || Roles.IsValid(u.role)
    ensures r.Err? ==> r.error == InvalidRole
    ensures u.role == "" ==> r == Ok(u.(role := Roles.Name(Roles.User)))
    ensures u.role != "" && r.Ok? ==> r == Ok(u)
    ensures r.Ok? ==> Roles.IsValid(r.value.role)
  {
    var withDefault := if u.role == "" then u.(role := Roles.Name(Roles.User)) else u;
    if !Roles.IsValid(withDefault.role) then Err(InvalidRole) else Ok(withDefault)
  }

  /** The service, holding the user store it delegates to. */
  class UserService {
    const repo: Store

    ghost predicate Valid()
      reads this, repo
    {
      repo.Valid()
    }

    constructor (repo: Store)
      ensures this.repo == repo
    {
      this.repo := repo;
    }

    /**
     * `RegisterUser`: stores the user with role "user" whatever role was
     * supplied, keeping name and email; the store's error is passed on.
     */
    method RegisterUser(u: User, newId: string, link: Link) returns (r: Result<User, APIError>)
      requires Valid()
      modifies repo
      ensures Valid()
      ensures r.Ok? <==> link == Up && First(old(repo.docs), HasId(newId)).None?
      ensures r.Ok? ==>
        r.value == User(newId, u.name, u.email, Roles.Name(Roles.User)) &&
        repo.docs == old(repo.docs) + [Document(newId, Wellformed(u.name, u.email, Roles.Name(Roles.User)))]
      ensures r.Err? ==> r == Err(CreateFailed) && repo.docs == old(repo.docs)
    {
      r := repo.CreateUser(PublicRegistration(u), newId, link);
    }

    /**
     * `AdminRegisterUser`: an empty role becomes "user"; an invalid role is
     * refused with a bad request before the store is touched; a valid role is
     * stored as given.
     */
    method AdminRegisterUser(u: User, newId: string, link: Link) returns (r: Result<User, APIError>)
      requires Valid()
      modifies repo
      ensures Valid()
      ensures u.role != "" && !Roles.IsValid(u.role) ==> r == Err(InvalidRole) && repo.docs == old(repo.docs)
      ensures r.Ok? ==>
        Roles.IsValid(r.value.role) &&
        r.value == u.(id := newId, role := if u.role == "" then Roles.Name(Roles.User) else u.role) &&
        repo.docs == old(repo.docs) + [Document(newId, Encode(r.value))]
      ensures r.Err? ==> repo.docs == old(repo.docs)
      ensures (u.role == "" || Roles.IsValid(u.role)) ==>
        (r.Ok? <==> link == Up && First(old(repo.docs), HasId(newId)).None?)
      ensures (u.role == "" || Roles.IsValid(u.role)) && r.Err? ==> r == Err(CreateFailed)
    {
      var checked := AdminRegistration(u);
      if checked.Err? {
        return Err(checked.error);
      }
      r := repo.CreateUser(checked.value, newId, link);
    }

    /**
     * `LoginUser`: the store's lookup error is returned unchanged and no token is
     * issued; a failure to issue becomes a 500; otherwise the token issued for the
     * found user's ID, email and role.
     */
    function LoginUser(email: string, link: Link, secret: string, now: int, sign: Auth.Signer)
      : (r: Result<string, APIError>)
      reads this, repo
      ensures repo.GetUserByEmail(email, link).Err? ==> r == Err(repo.GetUserByEmail(email, link).error)
      ensures repo.GetUserByEmail(email, link).Ok? && r.Err? ==> r.error == TokenFailed
      ensures repo.GetUserByEmail(email, link).Ok? ==>
        var u := repo.GetUserByEmail(email, link).value;
        Auth.GenerateJWT(u.id, u.email, u.role, secret, now, sign).Ok? ==>
          r == Ok(Auth.GenerateJWT(u.id, u.email, u.role, secret, now, sign).value)
      ensures r.Ok? ==>
        var u := repo.GetUserByEmail(email, link).value;
        repo.GetUserByEmail(email, link).Ok? &&
        Auth.GenerateJWT(u.id, u.email, u.role, secret, now, sign) == Ok(r.value)
      ensures secret == "" ==> r.Err?
    {
      match repo.GetUserByEmail(email, link)
      case Err(e) => Err(e)
      case Ok(u) =>
        match Auth.GenerateJWT(u.id, u.email, u.role, secret, now, sign)
        case Err(_) => Err(TokenFailed)
        case Ok(token) => Ok(token)
    }

    /** `FindUserByID`: exactly what the store returns. */
    function FindUserByID(id: string, link: Link): (r: Result<User, APIError>)
      requires Valid()
      reads this, repo
      ensures r == repo.GetUser(id, link)
    {
      repo.GetUser(id, link)
    }

    /** `FindAllUsers`: exactly what the store's listing returns. */
    method FindAllUsers(failing: Option<nat>) returns (r: Result<seq<User>, APIError>)
      ensures r == Drain(repo.docs, failing)
    {
      r := repo.GetAllUsers(failing);
    }
  }

  /**
   * Login followed by a protected request: the token `LoginUser` issues, sent as
   * "Bearer <token>" within 24 hours, passes authentication as the found user and
   * their role, reaches a route open to any role, and is refused with 403 on an
   * admin route unless that role is "admin".
   */
  lemma LoginThenAccess(
    svc: UserService, email: string, secret: string, issuedAt: int, now: int,
    sign: Auth.Signer, verify: Auth.Verifier, token: string)
    requires Auth.SignerMatches(sign, verify, secret)
    requires svc.LoginUser(email, Up, secret, issuedAt, sign) == Ok(token)
    requires now < issuedAt + Auth.TokenLifetime
    ensures svc.repo.GetUserByEmail(email, Up).Ok?
    ensures var u := svc.repo.GetUserByEmail(email, Up).value;
      Auth.Authenticate("Bearer " + token, secret, now, verify) == Ok(Auth.Identity(u.id, u.role)) &&
      Auth.Gate("Bearer " + token, secret, now, verify, None) == Auth.Proceed &&
      (u.role != Roles.Name(Roles.Admin) ==>
        Auth.Gate("Bearer " + token, secret, now, verify, Some(Roles.Name(Roles.Admin))) == Auth.Halt(Auth.PermissionDenied))
  {
    var u := svc.repo.GetUserByEmail(email, Up).value;
    Auth.IssuedTokenRoundTrip(u.id, u.email, u.role, secret, issuedAt, now, sign, verify, token);
  }
}
