/**
 * Rows of the `users` table as the authenticators read them, the `.filter(...).first()`
 * lookup, and the schema validators that run whenever a row becomes a pydantic model.
 */
module UserRecords {
  import opened Wrappers
  import opened Text
  import opened Tokens
  import opened UsersSchema

  /** A row of `users`. Its position in the sequence is its position in the table. */
  datatype User = User(
    key: string,
    username: string,
    name: string,
    email: string,
    active: bool,
    blocked: bool,
    verified: bool,
    passwordHash: string,
    passwordStrikes: int)

  /** The two columns a user can be found by. */
  datatype Column = EmailColumn | UsernameColumn

  function Field(u: User, c: Column): string {
    match c
    case EmailColumn => u.email
    case UsernameColumn => u.username
  }

  /** `query(UserORM).filter(column == x).first()`: the first row whose column holds `x`. */
  function Find(rows: seq<User>, c: Column, x: string): (r: Option<nat>)
    ensures r.Some? ==> r.value < |rows| && Field(rows[r.value], c) == x
    ensures r.Some? ==> forall j :: 0 <= j < r.value ==> Field(rows[j], c) != x
    ensures r.None? <==> forall j :: 0 <= j < |rows| ==> Field(rows[j], c) != x
  {
    if rows == [] then None
    else if Field(rows[0], c) == x then Some(0)
    else
      match Find(rows[1..], c, x)
      case None => None
      case Some(i) => Some(i + 1)
  }

  /** Two rows that agree on a column are interchangeable for lookups by that column. */
  lemma {:induction false} FindAfterUpdate(rows: seq<User>, i: nat, u: User, c: Column, x: string)
    requires i < |rows| && Field(u, c) == Field(rows[i], c)
    ensures Find(rows[i := u], c, x) == Find(rows, c, x)
  {
    var updated := rows[i := u];
    assert Field(updated[0], c) == Field(rows[0], c);
    if i == 0 {
      assert updated[1..] == rows[1..];
    } else {
      assert updated[1..] == rows[1..][i - 1 := u];
      FindAfterUpdate(rows[1..], i - 1, u, c, x);
    }
  }

  /** `UserBase`: what `identify` hands back. */
  datatype Profile = Profile(username: string, name: string, email: string)

  /**
   * Turning a row into `UserDB`, `UserOut` or `UserBase` runs the username validator, then the
   * name validator; a row either fails (`ValidationError`) or comes out normalised.
   */
  function Normalised(u: User): (r: Result<User, AuthError>)
    ensures r.Success? <==> ValidateUsername(u.username).Success? && ValidateName(u.name).Success?
    ensures r.Failure? ==> r.error == InvalidRecord
    ensures r.Success? ==> r.value == u.(username := Lower(u.username), name := Title(u.name))
  {
    match ValidateUsername(u.username)
    case Failure(_) => Failure(InvalidRecord)
    case Success(username) =>
      match ValidateName(u.name)
      case Failure(_) => Failure(InvalidRecord)
      case Success(name) => Success(u.(username := username, name := name))
  }

  /** A normalised row passes the validators again and is left as it is. */
  lemma NormalisedIsStable(u: User)
    requires Normalised(u).Success?
    ensures Normalised(Normalised(u).value) == Normalised(u)
  {
    UsernameNormalisationIsStable(u.username);
    NameNormalisationIsStable(u.name);
  }

  function ProfileOf(u: User): Profile {
    Profile(u.username, u.name, u.email)
  }
}
