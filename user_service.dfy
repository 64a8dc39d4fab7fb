/** `UserService`: user CRUD over the user repository. Creating a user also
    gives the user a cart. */
module UserService {
  import opened Wrappers
  import opened Domain
  import opened Repositories
  import CartService

  datatype CreateUserRequest = CreateUserRequest(email: string, password: string, firstName: string, lastName: string)

  datatype UserUpdateRequest = UserUpdateRequest(firstName: string, lastName: string)

  /** `userRepository.existsByEmail`. */
  predicate EmailTaken(users: map<nat, User>, email: string) {
    exists u :: u in users && users[u].email == email
  }

  /** `getUserById`: the stored user, or "User not found". */
  method GetUserById(s: Store, userId: nat) returns (r: Result<User>)
    ensures userId in s.users ==> r == Ok(s.users[userId])
    ensures userId !in s.users ==> r == Err(ResourceNotFound("User not found"))
  {
    if userId in s.users {
      r := Ok(s.users[userId]);
    } else {
      r := Err(ResourceNotFound("User not found"));
    }
  }

  /** `createUser`: a taken email throws and creates neither user nor cart;
      otherwise a fresh user with the request's email and names and the
      encoded password is saved, and then one new cart bound to that user.
      `encode` is the password encoder. */
  method CreateUser(s: Store, request: CreateUserRequest, encode: string -> string) returns (r: Result<User>)
    requires s.Valid()
    modifies s
    ensures s.Valid()
    ensures s.CatalogueUnchanged() && s.orders == old(s.orders)
    ensures old(EmailTaken(s.users, request.email)) ==>
      && r == Err(AlreadyExists(request.email + " already exists!"))
      && s.UsersUnchanged() && s.CartsUnchanged()
    ensures !old(EmailTaken(s.users, request.email)) ==>
      var id := old(s.nextUserId);
      var cartId := old(s.nextCartId);
      && r == Ok(User(id, request.email, encode(request.password), request.firstName, request.lastName))
      && id !in old(s.users)
      && s.users == old(s.users)[id := r.value]
      && s.nextUserId == id + 1
      && cartId !in old(s.carts)
      && s.carts == old(s.carts)[cartId := Cart(Some(id), [], 0)]
      && s.nextCartId == cartId + 1
  {
    if EmailTaken(s.users, request.email) {
      return Err(AlreadyExists(request.email + " already exists!"));
    }
    var user := User(s.nextUserId, request.email, encode(request.password), request.firstName, request.lastName);
    s.nextUserId := s.nextUserId + 1;
    s.users := s.users[user.id := user];
    assert !CartService.HasCart(s.carts, user.id);
    var _ := CartService.InitializeNewCart(s, user.id);
    r := Ok(user);
  }

  /** `updateUser`: only the first and last names change; the email and the
      password stay. "User not found" for an unknown id. */
  method UpdateUser(s: Store, request: UserUpdateRequest, userId: nat) returns (r: Result<User>)
    requires s.Valid()
    modifies s
    ensures s.Valid()
    ensures s.CatalogueUnchanged() && s.CartsUnchanged() && s.orders == old(s.orders)
    ensures s.nextUserId == old(s.nextUserId)
    ensures userId !in old(s.users) ==> r == Err(ResourceNotFound("User not found")) && s.users == old(s.users)
    ensures userId in old(s.users) ==>
      var before := old(s.users[userId]);
      && r.Ok?
      && r.value.id == userId && r.value.email == before.email && r.value.password == before.password
      && r.value.firstName == request.firstName && r.value.lastName == request.lastName
      && s.users == old(s.users)[userId := r.value]
  {
    if userId !in s.users {
      return Err(ResourceNotFound("User not found"));
    }
    var user := s.users[userId];
    user := user.(firstName := request.firstName);
    user := user.(lastName := request.lastName);
    s.users := s.users[userId := user];
    r := Ok(user);
  }

  /** `deleteUser`: removes exactly that user, or throws "User not found". */
  method DeleteUser(s: Store, userId: nat) returns (r: Outcome)
    requires s.Valid()
    modifies s
    ensures s.Valid()
    ensures s.CatalogueUnchanged() && s.CartsUnchanged() && s.orders == old(s.orders)
    ensures s.nextUserId == old(s.nextUserId)
    ensures userId !in old(s.users) ==> r == Failed(ResourceNotFound("User not found")) && s.users == old(s.users)
    ensures userId in old(s.users) ==> r == Done && s.users == old(s.users) - {userId}
  {
    if userId !in s.users {
      return Failed(ResourceNotFound("User not found"));
    }
    s.users := s.users - {userId};
    r := Done;
  }
}
