/** Fenced leases: the row rules of `claim_lease`, `check_lease` and `release_lease`, and what
    they guarantee over every run of one resource. */
module Fencing {
  import opened Wrappers

  /** A lease row. A release clears the holder and keeps the token. */
  datatype Lease = Lease(holder: Option<nat>, expires: int, token: nat)

  function Token(row: Option<Lease>): nat {
    match row case None => 0 case Some(lease) => lease.token
  }

  function Claim(row: Option<Lease>, holder: nat, expires: int, now: int): (r: Result<Lease>) {
    if expires <= now then Err(InvalidRequest)
    else if row.Some? && row.value.holder.Some? && row.value.holder.value != holder && row.value.expires > now then
      Err(LeaseConflict)
    else if Token(row) + 1 > MAX_INT then Err(InvalidState)
    else Ok(Lease(Some(holder), expires, Token(row) + 1))
  }

  function Check(row: Option<Lease>, holder: nat, token: nat, now: int): (r: Result<Lease>) {
    if row.None? || row.value.holder != Some(holder) || row.value.token != token || row.value.expires <= now then
      Err(LeaseLost)
    else Ok(row.value)
  }

  function Release(row: Option<Lease>, holder: nat, token: nat): (r: Result<Lease>) {
    if row.None? || row.value.holder != Some(holder) || row.value.token != token then Err(LeaseLost)
    else Ok(row.value.(holder := None))
  }

  // ---------------------------------------------------------------- runs of one resource

  datatype Op =
    | DoClaim(holder: nat, expires: int, now: int)
    | DoRelease(holder: nat, token: nat)
    | GuardedWrite(holder: nat, token: nat, now: int)

  /** The row, every token handed out so far, and the token each guarded write carried. */
  datatype Fence = Fence(row: Option<Lease>, issued: seq<nat>, writes: seq<nat>)

  function Apply(f: Fence, op: Op): Fence {
    match op
    case DoClaim(holder, expires, now) =>
      (var r := Claim(f.row, holder, expires, now);
       if r.Ok? then f.(row := Some(r.value), issued := f.issued + [r.value.token]) else f)
    case DoRelease(holder, token) =>
      (var r := Release(f.row, holder, token);
       if r.Ok? then f.(row := Some(r.value)) else f)
    case GuardedWrite(holder, token, now) =>
      if Check(f.row, holder, token, now).Ok? then f.(writes := f.writes + [token]) else f
  }

  function Run(f: Fence, ops: seq<Op>): Fence
    decreases |ops|
  {
    if ops == [] then f else Run(Apply(f, ops[0]), ops[1..])
  }

  predicate Increasing(tokens: seq<nat>) {
    forall i, j :: 0 <= i < j < |tokens| ==> tokens[i] < tokens[j]
  }

  predicate NonDecreasing(tokens: seq<nat>) {
    forall i, j :: 0 <= i < j < |tokens| ==> tokens[i] <= tokens[j]
  }

  predicate Below(tokens: seq<nat>, bound: nat) {
    forall i :: 0 <= i < |tokens| ==> tokens[i] <= bound
  }

  predicate FenceOk(f: Fence) {
    && Increasing(f.issued) && Below(f.issued, Token(f.row))
    && NonDecreasing(f.writes) && Below(f.writes, Token(f.row))
  }

  /** Issued tokens strictly increase and guarded writes never go back to an older token,
      whatever sequence of claims, takeovers, releases and writes is made. */
  lemma {:induction false} TokensOnlyMoveForward(f: Fence, ops: seq<Op>)
    requires FenceOk(f)
    ensures FenceOk(Run(f, ops)) && Token(f.row) <= Token(Run(f, ops).row)
    ensures f.issued <= Run(f, ops).issued && f.writes <= Run(f, ops).writes
    decreases |ops|
  {
    if ops != [] {
      TokensOnlyMoveForward(Apply(f, ops[0]), ops[1..]);
    }
  }

  /** Once a newer token has been issued, no continuation lets the superseded one pass a check
      or be released. */
  lemma SupersededNeverPasses(f: Fence, ops: seq<Op>, holder: nat, token: nat, now: int)
    requires FenceOk(f) && token < Token(f.row)
    ensures Check(Run(f, ops).row, holder, token, now) == Err(LeaseLost)
    ensures Release(Run(f, ops).row, holder, token) == Err(LeaseLost)
  {
    TokensOnlyMoveForward(f, ops);
  }

  /** A run that contains a successful claim cuts off every token issued before that claim. */
  lemma ClaimCutsOff(f: Fence, holder: nat, expires: int, now: int, ops: seq<Op>, other: nat, token: nat, later: int)
    requires FenceOk(f) && token <= Token(f.row) && Claim(f.row, holder, expires, now).Ok?
    ensures Check(Run(Apply(f, DoClaim(holder, expires, now)), ops).row, other, token, later).Err?
  {
    var next := Apply(f, DoClaim(holder, expires, now));
    assert FenceOk(next);
    SupersededNeverPasses(next, ops, other, token, later);
  }

  predicate HasClaim(ops: seq<Op>, holder: nat) {
    exists i :: 0 <= i < |ops| && ops[i].DoClaim? && ops[i].holder == holder
  }

  predicate ClaimsBefore(ops: seq<Op>, deadline: int) {
    forall i :: 0 <= i < |ops| ==> ops[i].DoClaim? ==> ops[i].now < deadline
  }

  predicate Releases(ops: seq<Op>, holder: nat, token: nat) {
    DoRelease(holder, token) in ops
  }

  /** Exclusion: until its lease expires, nobody but the holder itself can take the resource away,
      by claiming it or by releasing it. */
  lemma {:induction false} LiveLeaseIsExclusive(f: Fence, ops: seq<Op>, holder: nat)
    requires f.row.Some? && f.row.value.holder == Some(holder)
    requires ClaimsBefore(ops, f.row.value.expires) && !HasClaim(ops, holder)
    requires !Releases(ops, holder, f.row.value.token)
    ensures Run(f, ops).row == f.row
    decreases |ops|
  {
    if ops != [] {
      var rest := ops[1..];
      assert forall i :: 0 <= i < |rest| ==> rest[i] == ops[i + 1];
      assert ops[0] in ops;
      assert Apply(f, ops[0]).row == f.row;
      LiveLeaseIsExclusive(Apply(f, ops[0]), rest, holder);
    }
  }

  /** A claim succeeds exactly if it reaches beyond now, nobody else holds the row live, and tokens are left; a check
      and a release, exactly for the holder of the row's token, the check only while it lives. */
  lemma ClaimedExactly(row: Option<Lease>, holder: nat, expires: int, now: int, token: nat)
    ensures Claim(row, holder, expires, now).Ok?
        <==> expires > now && (row.Some? ==> row.value.token < MAX_INT)
             && (row.None? || row.value.holder.None? || row.value.holder == Some(holder) || row.value.expires <= now)
    ensures Claim(row, holder, expires, now).Ok? ==>
              Claim(row, holder, expires, now).value == Lease(Some(holder), expires, Token(row) + 1)
    ensures Check(row, holder, token, now).Ok?
        <==> row.Some? && row.value.holder == Some(holder) && row.value.token == token && now < row.value.expires
    ensures Release(row, holder, token).Ok?
        <==> row.Some? && row.value.holder == Some(holder) && row.value.token == token
    ensures Release(row, holder, token).Ok? ==> Release(row, holder, token).value == row.value.(holder := None)
  {
  }
}
