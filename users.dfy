/**
 * `UserService.create`: hash the password, then save a user row whose role is
 * always CUSTOMER, translating any save failure into a fixed 500 error. The
 * TypeORM repository is a class over a sequence of rows with an
 * auto-increment id; bcrypt is an uninterpreted function passed in.
 */
module Users {
  import opened Wrappers
  import opened Http

  /** `Roles.CUSTOMER`, and the other roles a stored user may carry. */
  datatype Role = Customer | OtherRole(name: string)

  /** The request fields `create` receives. */
  datatype UserData = UserData(firstName: string, lastName: string, email: string, password: string)

  /** A stored `User` row; `password` holds the bcrypt digest. */
  datatype User = User(id: nat, firstName: string, lastName: string, email: string, password: string, role: Role)

  /** `bcrypt.hash(plain, cost)`, which may reject. */
  type Hasher = (string, nat) -> Result<string, HttpError>

  /** The bcrypt cost passed by `create`. */
  const SaltRounds: nat := 10

  const StoreFailureMessage: string := "Failed to store the data in the database"

  /** What `create` hands to `save`, before the database assigns an id. */
  datatype NewUser = NewUser(firstName: string, lastName: string, email: string, password: string, role: Role)

  function WithId(u: NewUser, id: nat): User
  {
    User(id, u.firstName, u.lastName, u.email, u.password, u.role)
  }

  /**
   * The `User` repository: its rows, in insertion order, and the next
   * primary key. Whether a save fails (a constraint violation, a lost
   * connection) is decided by the environment and passed in as `fault`.
   */
  class UserRepository {
    var rows: seq<User>
    var nextId: nat

    /** Ids are strictly increasing and below the next id. */
    ghost predicate Valid()
      reads this
    {
      && (forall i, j :: 0 <= i < j < |rows| ==> rows[i].id < rows[j].id)
      && (forall i :: 0 <= i < |rows| ==> rows[i].id < nextId)
    }

    constructor ()
      ensures Valid() && rows == [] && nextId == 1
    {
      rows := [];
      nextId := 1;
    }

    /** `userRepository.save(entity)`: returns the stored row, id included. */
    method Save(entity: NewUser, fault: Option<HttpError>) returns (r: Result<User, HttpError>)
      requires Valid()
      modifies this
      ensures Valid()
      ensures fault.Some? ==> r == Failure(fault.value) && rows == old(rows) && nextId == old(nextId)
      ensures fault.None? ==> r == Success(WithId(entity, old(nextId)))
                              && rows == old(rows) + [r.value] && nextId == old(nextId) + 1
    {
      if fault.Some? {
        return Failure(fault.value);
      }
      var user := WithId(entity, nextId);
      rows := rows + [user];
      nextId := nextId + 1;
      return Success(user);
    }
  }

  /**
   * What `create` returns (or throws) when the repository would give the
   * new row id `id`: the hash error untranslated, the fixed 500 error for a
   * failed save, or the saved row.
   */
  function CreateOutcome(data: UserData, hash: Hasher, fault: Option<HttpError>, id: nat): (r: Result<User, HttpError>)
    ensures r.Success? <==> hash(data.password, SaltRounds).Success? && fault.None?
    ensures r.Success? ==> r.value.role == Customer && r.value.password == hash(data.password, SaltRounds).value
  {
    match hash(data.password, SaltRounds)
    case Failure(e) => Failure(e)
    case Success(digest) =>
      if fault.Some? then Failure(InternalServerError(StoreFailureMessage))
      else Success(WithId(NewUser(data.firstName, data.lastName, data.email, digest, Customer), id))
  }

  class UserService {
    const repository: UserRepository

    constructor (repository: UserRepository)
      ensures this.repository == repository
    {
      this.repository := repository;
    }

    /** `UserService.create`. */
    method Create(data: UserData, hash: Hasher, fault: Option<HttpError>) returns (r: Result<User, HttpError>)
      requires repository.Valid()
      modifies repository
      ensures repository.Valid()
      ensures r == CreateOutcome(data, hash, fault, old(repository.nextId))
      ensures repository.rows == old(repository.rows) + (if r.Success? then [r.value] else [])
      ensures repository.nextId == old(repository.nextId) + (if r.Success? then 1 else 0)
    {
      var hashed := hash(data.password, SaltRounds);
      if hashed.Failure? {
        return Failure(hashed.error);
      }
      var saved := repository.Save(NewUser(data.firstName, data.lastName, data.email, hashed.value, Customer), fault);
      if saved.Failure? {
        return Failure(InternalServerError(StoreFailureMessage));
      }
      return saved;
    }
  }

  /**
   * A saved row keeps the request's names and email, holds the digest and
   * not the plaintext's slot, has role CUSTOMER, and takes the next id.
   */
  lemma CreateStoresDigest(data: UserData, hash: Hasher, id: nat)
    requires hash(data.password, SaltRounds).Success?
    ensures var r := CreateOutcome(data, hash, None, id);
      && r.Success?
      && r.value == User(id, data.firstName, data.lastName, data.email, hash(data.password, SaltRounds).value, Customer)
  {
  }

  /**
   * Every save failure becomes the same 500 error; the database's own error
   * is discarded.
   */
  lemma SaveFailureTranslated(data: UserData, hash: Hasher, e1: HttpError, e2: HttpError, id: nat)
    requires hash(data.password, SaltRounds).Success?
    ensures CreateOutcome(data, hash, Some(e1), id) == Failure(InternalServerError(StoreFailureMessage))
    ensures CreateOutcome(data, hash, Some(e1), id) == CreateOutcome(data, hash, Some(e2), id)
  {
  }

  /** A hashing failure happens before the try and propagates as it is. */
  lemma HashFailureUntranslated(data: UserData, hash: Hasher, fault: Option<HttpError>, id: nat)
    requires hash(data.password, SaltRounds).Failure?
    ensures CreateOutcome(data, hash, fault, id) == Failure(hash(data.password, SaltRounds).error)
  {
  }
}
