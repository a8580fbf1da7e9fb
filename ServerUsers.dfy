/**
 * The server's UserRepository over the `users` table, whose e-mail column
 * has a unique index. BCrypt is a pair of parameters: `hashpw(password,
 * salt)` and `checkpw(password, hash)`, with the random salt passed in.
 * The table is written only by create, so the first user registered is the
 * one administrator.
 */
module ServerUsers {
  import opened Wrappers
  import opened Lists
  import opened Tables

  datatype UserRow = UserRow(id: int, name: string, email: string, passwordHash: string, role: string)

  datatype UserResponse = UserResponse(id: int, name: string, email: string, role: string)

  const AdminRole := "ADMIN"
  const UserRole := "USER"

  function RowId(u: UserRow): int {
    u.id
  }

  /** The response never carries the password hash. */
  function ToResponse(u: UserRow): UserResponse {
    UserResponse(u.id, u.name, u.email, u.role)
  }

  function Responses(rows: seq<UserRow>): (r: seq<UserResponse>)
    ensures |r| == |rows| && forall i :: 0 <= i < |rows| ==> r[i] == ToResponse(rows[i])
  {
    seq(|rows|, i requires 0 <= i < |rows| => ToResponse(rows[i]))
  }

  /** `select { email eq :email }`. */
  function WithEmail(rows: seq<UserRow>, email: string): seq<UserRow> {
    Filter(rows, (u: UserRow) => u.email == email)
  }

  /** `select { id eq :id }`. */
  function WithId(rows: seq<UserRow>, id: int): seq<UserRow> {
    Filter(rows, (u: UserRow) => u.id == id)
  }

  /** The unique index on the e-mail column. */
  predicate UniqueEmails(rows: seq<UserRow>) {
    forall i, j :: 0 <= i < j < |rows| ==> rows[i].email != rows[j].email
  }

  /** The role create gives: administrator for the first user, user for every later one. */
  predicate RolesByOrder(rows: seq<UserRow>) {
    forall i :: 0 <= i < |rows| ==> rows[i].role == if i == 0 then AdminRole else UserRole
  }

  /** The columns create writes fit the `users` schema: name 100, e-mail 255 and hash 255 characters (the role always fits). */
  predicate Storable(name: string, email: string, passwordHash: string) {
    FitsVarchar(name, 100) && FitsVarchar(email, 255) && FitsVarchar(passwordHash, 255)
  }

  /** Under a unique column at most one row is selected, and it is selected exactly when a row has the value. */
  lemma WithEmailSingle(rows: seq<UserRow>, email: string)
    requires UniqueEmails(rows)
    ensures |WithEmail(rows, email)| <= 1
    ensures |WithEmail(rows, email)| == 1 <==> exists u :: u in rows && u.email == email
    ensures |WithEmail(rows, email)| == 1 ==> WithEmail(rows, email)[0] in rows && WithEmail(rows, email)[0].email == email
  {
    FilterSingle(rows, (u: UserRow) => u.email == email);
  }

  lemma WithIdSingle(rows: seq<UserRow>, id: int)
    requires UniqueKeys(rows, RowId)
    ensures |WithId(rows, id)| <= 1
    ensures |WithId(rows, id)| == 1 <==> exists u :: u in rows && u.id == id
    ensures |WithId(rows, id)| == 1 ==> WithId(rows, id)[0] in rows && WithId(rows, id)[0].id == id
  {
    FilterSingle(rows, (u: UserRow) => u.id == id);
  }

  /** Some stored user has the e-mail. */
  predicate EmailTaken(rows: seq<UserRow>, email: string) {
    exists u :: u in rows && u.email == email
  }

  /** create's lookup finds a user exactly when the e-mail is taken. */
  lemma FoundIffTaken(rows: seq<UserRow>, email: string)
    requires UniqueEmails(rows)
    ensures SingleOrNull(WithEmail(rows, email)).Some? <==> EmailTaken(rows, email)
  {
    WithEmailSingle(rows, email);
  }

  /** A row whose e-mail no stored row has keeps the e-mails unique. */
  lemma AppendFreshEmail(rows: seq<UserRow>, row: UserRow)
    requires UniqueEmails(rows) && !EmailTaken(rows, row.email)
    ensures UniqueEmails(rows + [row])
  {
    var after := rows + [row];
    forall i, j | 0 <= i < j < |after| ensures after[i].email != after[j].email {
      if j == |rows| {
        assert after[i] in rows;
      } else {
        assert after[i] == rows[i] && after[j] == rows[j];
      }
    }
  }

  class UserRepository {
    var rows: seq<UserRow>
    var lastId: int

    predicate Valid()
      reads this
    {
      && 0 <= lastId && UniqueKeys(rows, RowId) && KeysIssued(rows, RowId, lastId)
      && UniqueEmails(rows) && RolesByOrder(rows)
    }

    constructor ()
      ensures rows == [] && lastId == 0 && Valid()
    {
      rows := [];
      lastId := 0;
    }

    /**
     * create: nothing when the e-mail is taken; otherwise a new user with
     * the salted hash of the password, administrator exactly when the table
     * was empty. A value too wide for its column throws and writes nothing.
     */
    method Create(hashpw: (string, string) -> string, salt: string, name: string, email: string, password: string)
      returns (r: Result<Option<UserResponse>>)
      requires Valid()
      modifies this
      ensures Valid()
      ensures EmailTaken(old(rows), email) ==> r == Ok(None) && rows == old(rows) && lastId == old(lastId)
      ensures !EmailTaken(old(rows), email) && !Storable(name, email, hashpw(password, salt)) ==>
        r == Err(ColumnOverflow) && rows == old(rows) && lastId == old(lastId)
      ensures !EmailTaken(old(rows), email) && Storable(name, email, hashpw(password, salt)) ==>
        var row := UserRow(old(lastId) + 1, name, email, hashpw(password, salt),
                           if |old(rows)| == 0 then AdminRole else UserRole);
        && rows == old(rows) + [row] && lastId == old(lastId) + 1
        && r == Ok(Some(ToResponse(row)))
      ensures r.Ok? && r.value.Some? ==> (r.value.value.role == AdminRole <==> |old(rows)| == 0)
    {
      FoundIffTaken(rows, email);
      var existing := SingleOrNull(WithEmail(rows, email));
      if existing.Some? {
        r := Ok(None);
      } else {
        var passwordHash := hashpw(password, salt);
        var isFirstUser := |rows| == 0;
        var role := if isFirstUser then AdminRole else UserRole;
        if !Storable(name, email, passwordHash) {
          r := Err(ColumnOverflow);
        } else {
          var row := UserRow(lastId + 1, name, email, passwordHash, role);
          Insert(row);
          r := Ok(Some(ToResponse(row)));
        }
      }
    }

    /** The insert of create: the row takes the next id and the role its position gives. */
    method Insert(row: UserRow)
      requires Valid() && !EmailTaken(rows, row.email)
      requires row.id == lastId + 1 && row.role == if |rows| == 0 then AdminRole else UserRole
      modifies this
      ensures Valid()
      ensures rows == old(rows) + [row] && lastId == old(lastId) + 1
    {
      InsertNextKey(rows, RowId, lastId, row);
      AppendFreshEmail(rows, row);
      rows := rows + [row];
      lastId := lastId + 1;
    }

    /** findByEmailAndPassword: the user with that e-mail when the password checks against the stored hash. */
    function FindByEmailAndPassword(checkpw: (string, string) -> bool, email: string, password: string): (r: Option<UserResponse>)
      reads this
      ensures r.Some? ==> exists u :: u in rows && u.email == email && checkpw(password, u.passwordHash) && r.value == ToResponse(u)
      ensures Valid() ==> (r.Some? <==> exists u :: u in rows && u.email == email && checkpw(password, u.passwordHash))
    {
      var found := SingleOrNull(WithEmail(rows, email));
      if Valid() then
        WithEmailSingle(rows, email);
        FindUser(checkpw, found, password)
      else
        if |WithEmail(rows, email)| == 1 then
          assert WithEmail(rows, email)[0] in WithEmail(rows, email);
          FindUser(checkpw, found, password)
        else None
    }

    /** findById: the user with that id. */
    function FindById(id: int): (r: Option<UserResponse>)
      reads this
      ensures r.Some? ==> exists u :: u in rows && u.id == id && r.value == ToResponse(u)
      ensures Valid() ==> (r.Some? <==> exists u :: u in rows && u.id == id)
    {
      var w := WithId(rows, id);
      if |w| == 1 then
        assert w[0] in w;
        if Valid() then
          WithIdSingle(rows, id);
          SingleOrNull(Responses(w))
        else SingleOrNull(Responses(w))
      else
        if Valid() then
          WithIdSingle(rows, id);
          None
        else None
    }

    /** getAll: every user, in table order, without password hashes. */
    function GetAll(): (r: seq<UserResponse>)
      reads this
      ensures |r| == |rows| && forall i :: 0 <= i < |r| ==> r[i] == ToResponse(rows[i])
    {
      Responses(rows)
    }
  }

  /** The password check on the row the e-mail selected. */
  function FindUser(checkpw: (string, string) -> bool, found: Option<UserRow>, password: string): (r: Option<UserResponse>)
    ensures r.Some? <==> found.Some? && checkpw(password, found.value.passwordHash)
    ensures r.Some? ==> r.value == ToResponse(found.value)
  {
    match found
    case None => None
    case Some(u) => if checkpw(password, u.passwordHash) then Some(ToResponse(u)) else None
  }

  /**
   * A registered user can log in: when BCrypt's check accepts the password
   * against the stored hash, the e-mail and password find exactly that user.
   */
  lemma LoginFindsUser(repo: UserRepository, u: UserRow, checkpw: (string, string) -> bool, password: string)
    requires repo.Valid() && u in repo.rows && checkpw(password, u.passwordHash)
    ensures repo.FindByEmailAndPassword(checkpw, u.email, password) == Some(ToResponse(u))
  {
    WithEmailSingle(repo.rows, u.email);
    var w := WithEmail(repo.rows, u.email);
    FilterMember(repo.rows, (x: UserRow) => x.email == u.email, u);
    assert w[0] in repo.rows && w[0].email == u.email;
    var i :| 0 <= i < |repo.rows| && repo.rows[i] == u;
    var j :| 0 <= j < |repo.rows| && repo.rows[j] == w[0];
    assert i == j;
  }

  /** Only the first row of the table is an administrator. */
  lemma OneAdministrator(repo: UserRepository, u: UserRow)
    requires repo.Valid() && u in repo.rows
    ensures u.role == AdminRole <==> u == repo.rows[0]
  {
    var i :| 0 <= i < |repo.rows| && repo.rows[i] == u;
    if i != 0 {
      assert repo.rows[i].role == UserRole;
      assert repo.rows[0].id != u.id;
    }
  }
}
