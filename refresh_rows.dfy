/**
 * The `refresh_tokens` table (src/auth/entities/refresh-token.entity.ts): at most one row per
 * user id, enforced by the unique index on `user_id`. Rows are never deleted by the session
 * engine; a revoked row stays as an audit record.
 */
module RefreshRows {
  import opened Wrappers
  import opened Jwt

  /** A row (surrogate id, timestamps and soft-delete marker omitted); `expiresAt` is in milliseconds. */
  datatype RefreshRow = RefreshRow(userId: int, token: Token, expiresAt: int, isRevoked: bool)

  /** The unique index on `user_id`. */
  ghost predicate UniqueUserIds(rows: seq<RefreshRow>) {
    forall i, j :: 0 <= i < j < |rows| ==> rows[i].userId != rows[j].userId
  }

  /** The positions of the rows belonging to `uid`. */
  ghost function RowsOf(rows: seq<RefreshRow>, uid: int): set<nat> {
    set i: nat | i < |rows| && rows[i].userId == uid
  }

  /** `findOne({ where: { userId } })`: the position of the first row of that user. */
  function FindRow(rows: seq<RefreshRow>, uid: int): (r: Option<nat>)
    ensures r.Some? ==> r.value < |rows| && rows[r.value].userId == uid
    ensures r.Some? ==> forall k :: 0 <= k < r.value ==> rows[k].userId != uid
    ensures r.None? <==> forall i :: 0 <= i < |rows| ==> rows[i].userId != uid
  {
    if |rows| == 0 then None
    else if rows[0].userId == uid then Some(0)
    else
      var r := FindRow(rows[1..], uid);
      if r.Some? then Some(r.value + 1) else None
  }

  /** Under the unique index a user has no row or exactly the one `FindRow` returns. */
  lemma SingleRowPerUser(rows: seq<RefreshRow>, uid: int)
    requires UniqueUserIds(rows)
    ensures FindRow(rows, uid).None? ==> RowsOf(rows, uid) == {}
    ensures FindRow(rows, uid).Some? ==> RowsOf(rows, uid) == {FindRow(rows, uid).value}
  {
    var f := FindRow(rows, uid);
    if f.Some? {
      forall i | i in RowsOf(rows, uid) ensures i == f.value {
        assert rows[i].userId == rows[f.value].userId;
      }
    }
  }

  /**
   * The upsert of login and of long-tier rotation: overwrite the user's row with the new token,
   * the new expiry and `isRevoked = false`, or insert one when the user has none.
   */
  function Upsert(rows: seq<RefreshRow>, uid: int, token: Token, expiresAt: int): (r: seq<RefreshRow>)
    ensures UniqueUserIds(rows) ==> UniqueUserIds(r)
    ensures FindRow(r, uid).Some? && r[FindRow(r, uid).value] == RefreshRow(uid, token, expiresAt, false)
    ensures |r| == if FindRow(rows, uid).Some? then |rows| else |rows| + 1
    ensures forall i :: 0 <= i < |rows| && rows[i].userId != uid ==> r[i] == rows[i]
  {
    var row := RefreshRow(uid, token, expiresAt, false);
    match FindRow(rows, uid)
    case Some(i) =>
      var r := rows[i := row];
      assert FindRow(r, uid) == Some(i) by { FindRowOfUpdate(rows, uid, i, row); }
      r
    case None =>
      var r := rows + [row];
      assert FindRow(r, uid) == Some(|rows|) by { FindRowOfAppend(rows, uid, row); }
      r
  }

  /** Updating the first row of a user in place keeps it the first row of that user. */
  lemma {:induction false} FindRowOfUpdate(rows: seq<RefreshRow>, uid: int, i: nat, row: RefreshRow)
    requires FindRow(rows, uid) == Some(i)
    requires row.userId == uid
    ensures FindRow(rows[i := row], uid) == Some(i)
  {
    if i > 0 {
      assert rows[i := row][1..] == rows[1..][i - 1 := row];
      FindRowOfUpdate(rows[1..], uid, i - 1, row);
    }
  }

  /** A row appended for a user who had none becomes that user's row. */
  lemma {:induction false} FindRowOfAppend(rows: seq<RefreshRow>, uid: int, row: RefreshRow)
    requires FindRow(rows, uid).None?
    requires row.userId == uid
    ensures FindRow(rows + [row], uid) == Some(|rows|)
  {
    if |rows| > 0 {
      assert (rows + [row])[1..] == rows[1..] + [row];
      FindRowOfAppend(rows[1..], uid, row);
    }
  }

  /** Logout's soft revoke: the user's row, if any, becomes revoked and expires now; nothing is deleted. */
  function Revoke(rows: seq<RefreshRow>, uid: int, nowMs: int): (r: seq<RefreshRow>)
    ensures |r| == |rows|
    ensures forall i :: 0 <= i < |rows| ==> r[i].userId == rows[i].userId
    ensures forall i :: 0 <= i < |rows| && rows[i].userId != uid ==> r[i] == rows[i]
    ensures FindRow(rows, uid).Some? ==>
              var i := FindRow(rows, uid).value;
              r[i] == rows[i].(isRevoked := true, expiresAt := nowMs)
    ensures FindRow(rows, uid).None? ==> r == rows
  {
    match FindRow(rows, uid)
    case Some(i) => rows[i := rows[i].(isRevoked := true, expiresAt := nowMs)]
    case None => rows
  }
}
