/**
 * The `RefreshToken` entity and the table that `presistRefreshToken` inserts
 * into. The token service itself is not part of this model; the store below
 * is the persistence step it performs for the controller.
 */
module RefreshTokens {
  import opened Wrappers
  import opened Http
  import opened Users

  /** The timestamps of a new row, which the token service and database supply. */
  datatype RecordTimes = RecordTimes(expiresAt: int, createdAt: int, updatedAt: int)

  /** A `RefreshToken` row; `userId` is its many-to-one link to `User`. */
  datatype RefreshToken = RefreshToken(id: nat, expiresAt: int, userId: nat, createdAt: int, updatedAt: int)

  /** The row that persisting for `user` creates under id `id`, or the fault. */
  function PersistOutcome(user: User, times: RecordTimes, fault: Option<HttpError>, id: nat): (r: Result<RefreshToken, HttpError>)
    ensures r.Success? <==> fault.None?
    ensures r.Success? ==> r.value.id == id && r.value.userId == user.id
  {
    if fault.Some? then Failure(fault.value)
    else Success(RefreshToken(id, times.expiresAt, user.id, times.createdAt, times.updatedAt))
  }

  /** Strictly increasing ids, all below `next`. */
  ghost predicate IdsBelow(rows: seq<RefreshToken>, next: nat)
  {
    && (forall i, j :: 0 <= i < j < |rows| ==> rows[i].id < rows[j].id)
    && (forall i :: 0 <= i < |rows| ==> rows[i].id < next)
  }

  /** How many rows carry id `id`. */
  function CountId(rows: seq<RefreshToken>, id: nat): nat
  {
    if rows == [] then 0 else (if rows[0].id == id then 1 else 0) + CountId(rows[1..], id)
  }

  lemma {:induction false} CountIdAbsent(rows: seq<RefreshToken>, id: nat)
    requires forall i :: 0 <= i < |rows| ==> rows[i].id != id
    ensures CountId(rows, id) == 0
  {
    if rows != [] {
      CountIdAbsent(rows[1..], id);
    }
  }

  lemma {:induction false} CountIdAppend(a: seq<RefreshToken>, b: seq<RefreshToken>, id: nat)
    ensures CountId(a + b, id) == CountId(a, id) + CountId(b, id)
  {
    if a == [] {
      assert a + b == b;
    } else {
      assert (a + b)[1..] == a[1..] + b;
      CountIdAppend(a[1..], b, id);
    }
  }

  /**
   * A row appended under the next id is the only row with that id: the
   * refresh token's `id` claim names exactly one persisted record.
   */
  lemma FreshRowUnique(rows: seq<RefreshToken>, next: nat, row: RefreshToken)
    requires IdsBelow(rows, next) && row.id == next
    ensures IdsBelow(rows + [row], next + 1)
    ensures CountId(rows + [row], row.id) == 1
  {
    CountIdAbsent(rows, row.id);
    CountIdAppend(rows, [row], row.id);
    assert [row][1..] == [];
  }

  class RefreshTokenStore {
    var rows: seq<RefreshToken>
    var nextId: nat

    ghost predicate Valid()
      reads this
    {
      IdsBelow(rows, nextId)
    }

    constructor ()
      ensures Valid() && rows == [] && nextId == 1
    {
      rows := [];
      nextId := 1;
    }

    /** `tokenService.presistRefreshToken(user)`: insert a row linked to `user`. */
    method Persist(user: User, times: RecordTimes, fault: Option<HttpError>) returns (r: Result<RefreshToken, HttpError>)
      requires Valid()
      modifies this
      ensures Valid()
      ensures r == PersistOutcome(user, times, fault, old(nextId))
      ensures rows == old(rows) + (if r.Success? then [r.value] else [])
      ensures r.Success? ==> CountId(rows, r.value.id) == 1
      ensures nextId == old(nextId) + (if r.Success? then 1 else 0)
    {
      r := PersistOutcome(user, times, fault, nextId);
      if r.Success? {
        FreshRowUnique(rows, nextId, r.value);
        rows := rows + [r.value];
        nextId := nextId + 1;
      }
    }
  }
}
