/**
 * The user table and `UsersService` (src/users/users.service.ts): lookup by email and creation
 * of a local user whose stored password digest is the keyed HMAC-SHA256 of the given password.
 */
module Users {
  import opened Wrappers

  /**
   * The hex digest of HMAC-SHA256 (RFC 2104) under `key`, kept symbolic: the model only relies on
   * it being a deterministic function of the key and the message.
   */
  datatype Digest = HmacSha256Hex(key: string, message: string)

  function Hmac(key: string, message: string): Digest {
    HmacSha256Hex(key, message)
  }

  datatype Provider = Local | Google | Facebook

  /** A row of the `users` table (timestamps, avatar and soft-delete marker omitted). */
  datatype User = User(
    id: int,
    email: string,
    passwordHash: Option<Digest>,
    displayName: Option<string>,
    provider: Provider,
    roleId: Option<int>)

  datatype CreateUserInput = CreateUserInput(
    email: string,
    passwordHash: string,     // despite its name, the plaintext password; `create` hashes it
    displayName: Option<string>,
    roleId: Option<int>)

  datatype UserError =
    | HashKeyMissing   // 'PASSWORD_HASH_KEY is required'
    | DuplicateEmail   // the unique index on `email` rejects the insert

  /** The table's rows and the next value of its `id` sequence. */
  datatype UserTable = UserTable(rows: seq<User>, nextId: int)

  /** JavaScript truthiness of the configured key: absent and "" are both missing. */
  predicate HasKey(hashKey: Option<string>) { hashKey.Some? && hashKey.value != "" }

  /** The schema's guarantees: emails are unique, ids come from a sequence starting at 1. */
  ghost predicate TableInv(t: UserTable) {
    && t.nextId >= 1
    && (forall i, j :: 0 <= i < j < |t.rows| ==> t.rows[i].email != t.rows[j].email)
    && (forall i :: 0 <= i < |t.rows| ==> 1 <= t.rows[i].id < t.nextId)
  }

  /** `hashPassword`: fails when the key is missing, otherwise the keyed digest of the password. */
  function HashPassword(hashKey: Option<string>, password: string): (r: Result<Digest, UserError>)
    ensures r.Failure? <==> !HasKey(hashKey)
    ensures r.Failure? ==> r.error == HashKeyMissing
    ensures r.Success? ==> r.value == Hmac(hashKey.value, password)
  {
    if !HasKey(hashKey) then Failure(HashKeyMissing) else Success(Hmac(hashKey.value, password))
  }

  /** `findByEmail`: the first row with that email, or none when no row has it. */
  function FindUser(rows: seq<User>, email: string): (r: Option<User>)
    ensures r.Some? ==> r.value in rows && r.value.email == email
    ensures r.None? <==> forall i :: 0 <= i < |rows| ==> rows[i].email != email
  {
    if |rows| == 0 then None
    else if rows[0].email == email then Some(rows[0])
    else FindUser(rows[1..], email)
  }

  /** With unique emails, the user found is THE user holding that email. */
  lemma {:induction false} FindUserUnique(rows: seq<User>, u: User)
    requires forall i, j :: 0 <= i < j < |rows| ==> rows[i].email != rows[j].email
    requires u in rows
    ensures FindUser(rows, u.email) == Some(u)
  {
    if rows[0] != u {
      assert rows[0].email != u.email by {
        var k :| 0 <= k < |rows| && rows[k] == u;
      }
      assert u in rows[1..];
      FindUserUnique(rows[1..], u);
    }
  }

  /** The row `create` builds: local provider, role 2 unless one is given. */
  function NewUser(id: int, input: CreateUserInput, digest: Digest): User {
    User(id, input.email, Some(digest), input.displayName, Local,
         Some(if input.roleId.Some? then input.roleId.value else 2))
  }

  /**
   * `create`: hash the password (failing before any save when the key is missing), then
   * insert the row (failing on the unique email index).
   */
  function CreateUser(t: UserTable, hashKey: Option<string>, input: CreateUserInput)
    : (r: (Result<User, UserError>, UserTable))
    ensures r.0.Failure? ==> r.1 == t
    ensures r.0 == Failure(HashKeyMissing) <==> !HasKey(hashKey)
    ensures r.0 == Failure(DuplicateEmail) <==> HasKey(hashKey) && FindUser(t.rows, input.email).Some?
    ensures r.0.Success? ==>
              && r.0.value.email == input.email
              && r.0.value.passwordHash == Some(Hmac(hashKey.value, input.passwordHash))
              && r.0.value.provider == Local
              && r.0.value.roleId == Some(if input.roleId.None? then 2 else input.roleId.value)
              && r.0.value.displayName == input.displayName
              && r.1 == UserTable(t.rows + [r.0.value], t.nextId + 1)
              && r.0.value.id == t.nextId
    ensures TableInv(t) ==> TableInv(r.1)
    ensures TableInv(t) && r.0.Success? ==> FindUser(r.1.rows, input.email) == Some(r.0.value)
  {
    match HashPassword(hashKey, input.passwordHash)
    case Failure(e) => (Failure(e), t)
    case Success(digest) =>
      if FindUser(t.rows, input.email).Some? then (Failure(DuplicateEmail), t)
      else
        var u := NewUser(t.nextId, input, digest);
        var t' := UserTable(t.rows + [u], t.nextId + 1);
        assert TableInv(t) ==> TableInv(t') && FindUser(t'.rows, u.email) == Some(u) by {
          if TableInv(t) {
            assert u == t'.rows[|t.rows|];
            FindUserUnique(t'.rows, u);
          }
        }
        (Success(u), t')
  }

  /** The users repository together with the service's configured hashing key. */
  class UsersService {
    const hashKey: Option<string>
    var rows: seq<User>
    var nextId: int

    function Table(): UserTable
      reads this
    {
      UserTable(rows, nextId)
    }

    ghost predicate Valid()
      reads this
    {
      TableInv(Table())
    }

    constructor (hashKey: Option<string>, seed: seq<User>, nextId: int)
      requires TableInv(UserTable(seed, nextId))
      ensures Valid() && this.hashKey == hashKey && Table() == UserTable(seed, nextId)
    {
      this.hashKey := hashKey;
      rows := seed;
      this.nextId := nextId;
    }

    /** `findByEmail`: scans the table for the row with that email. */
    method FindByEmail(email: string) returns (r: Option<User>)
      ensures r == FindUser(rows, email)
      ensures r.None? <==> forall i :: 0 <= i < |rows| ==> rows[i].email != email
    {
      var i := 0;
      while i < |rows|
        invariant 0 <= i <= |rows|
        invariant FindUser(rows, email) == FindUser(rows[i..], email)
      {
        if rows[i].email == email {
          return Some(rows[i]);
        }
        assert rows[i..][1..] == rows[i + 1..];
        i := i + 1;
      }
      r := None;
    }

    /** `create`: stores the keyed digest of the given password, never the password itself. */
    method Create(input: CreateUserInput) returns (r: Result<User, UserError>)
      requires Valid()
      modifies this
      ensures Valid()
      ensures (r, Table()) == CreateUser(old(Table()), hashKey, input)
    {
      if !HasKey(hashKey) {
        return Failure(HashKeyMissing);
      }
      var digest := Hmac(hashKey.value, input.passwordHash);
      // the unique index on `email` refuses the insert when the address is taken
      var clash := FindByEmail(input.email);
      if clash.Some? {
        return Failure(DuplicateEmail);
      }
      var u := NewUser(nextId, input, digest);
      rows := rows + [u];
      nextId := nextId + 1;
      r := Success(u);
    }
  }
}
