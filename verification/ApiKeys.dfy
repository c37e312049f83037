/**
 API keys: `Generate`, `Validate` and `Revoke` of internal/apikeys/apikeys.go over the key rows of
 internal/storage/db.go.

 A key is stored under the first eight bytes of its digest and found again by the whole digest. The
 digest is an arbitrary function here, so that what collisions do is part of the theorems. The
 specification is the history of calls. Times are nanoseconds.
 */
module ApiKeys {
  import opened Sequences

  type Byte = b: nat | b < 256

  function Zeros(k: string): (bytes: seq<Byte>)
    ensures |bytes| == 32
  {
    seq(32, _ => 0)
  }

  /** SHA-256, or anything else that gives 32 bytes. */
  type Digest = f: string -> seq<Byte> | forall k :: |f(k)| == 32 witness Zeros

  datatype Record = Record(
    id: string,
    name: string,
    keyHash: string,
    prefix: string,
    role: string,
    active: bool,
    createdAt: int,
    expiresAt: Option<int>,
    lastUsedAt: Option<int>)

  // ---------- Hexadecimal ----------

  function HexDigit(n: nat): char
    requires n < 16
  {
    if n < 10 then '0' + n as char else 'a' + (n - 10) as char
  }

  function Hex(bytes: seq<Byte>): (s: string)
    ensures |s| == 2 * |bytes|
  {
    if bytes == [] then "" else
    Hex(bytes[..|bytes| - 1]) + [HexDigit(bytes[|bytes| - 1] / 16), HexDigit(bytes[|bytes| - 1] % 16)]
  }

  lemma {:induction false} HexIsInjective(a: seq<Byte>, b: seq<Byte>)
    ensures Hex(a) == Hex(b) <==> a == b
  {
    if Hex(a) == Hex(b) && a != [] {
      var n := |a| - 1;
      assert |a| == |b|;
      assert Hex(a)[..2 * n] == Hex(a[..n]) && Hex(b)[..2 * n] == Hex(b[..n]);
      HexIsInjective(a[..n], b[..n]);
      assert HexDigit(a[n] / 16) == Hex(a)[2 * n] == HexDigit(b[n] / 16);
      assert HexDigit(a[n] % 16) == Hex(a)[2 * n + 1] == HexDigit(b[n] % 16);
      assert a == a[..n] + [a[n]] && b == b[..n] + [b[n]];
    }
  }

  /** Each byte prints as two digits, the higher one first. */
  lemma {:induction false} HexDigits(bytes: seq<Byte>, i: nat)
    requires i < |bytes|
    ensures Hex(bytes)[2 * i] == "0123456789abcdef"[bytes[i] / 16]
    ensures Hex(bytes)[2 * i + 1] == "0123456789abcdef"[bytes[i] % 16]
  {
    if i < |bytes| - 1 {
      HexDigits(bytes[..|bytes| - 1], i);
    } else {
      DigitIs(bytes[i] / 16);
      DigitIs(bytes[i] % 16);
    }
  }

  lemma DigitIs(n: nat)
    requires n < 16
    ensures HexDigit(n) == "0123456789abcdef"[n]
  {
  }

  lemma {:induction false} HexOfPrefix(a: seq<Byte>, n: nat)
    requires n <= |a|
    ensures Hex(a[..n]) == Hex(a)[..2 * n]
  {
    if n == |a| {
      assert a[..n] == a;
    } else {
      var f := a[..|a| - 1];
      HexOfPrefix(f, n);
      assert a[..n] == f[..n];
    }
  }

  function KeyHash(d: Digest, key: string): string {
    Hex(d(key))
  }

  function KeyId(d: Digest, key: string): string {
    Hex(d(key)[..8])
  }

  /** Keys with one hash share their id as well, so only the eight bytes of the id can collide on their own. */
  lemma IdFollowsHash(d: Digest, a: string, b: string)
    ensures KeyId(d, a) == KeyHash(d, a)[..16]
    ensures KeyHash(d, a) == KeyHash(d, b) ==> KeyId(d, a) == KeyId(d, b)
    ensures KeyId(d, a) == KeyId(d, b) <==> d(a)[..8] == d(b)[..8]
  {
    HexOfPrefix(d(a), 8);
    HexOfPrefix(d(b), 8);
    HexIsInjective(d(a)[..8], d(b)[..8]);
  }

  // ---------- Rows ----------

  type Rows = map<string, Record>

  datatype Op =
    | Generate(key: string, name: string, role: string, expires: Option<int>, at: int)
    | Validate(key: string, at: int, stamp: Option<int>)
    | Revoke(id: string)

  predicate Expired(expiresAt: Option<int>, now: int) {
    expiresAt.Some? && now > expiresAt.value
  }

  function NewRecord(d: Digest, op: Op): Record
    requires op.Generate?
  {
    Record(KeyId(d, op.key), op.name, KeyHash(d, op.key), op.key[..if |op.key| < 12 then |op.key| else 12], op.role,
           true, op.at, op.expires, None)
  }

  /** Whether `GetAPIKeyByHash` can answer with this row. */
  predicate Matches(r: Record, hash: string) {
    r.keyHash == hash && r.active
  }

  ghost predicate Accepts(rows: Rows, d: Digest, key: string, now: int) {
    exists id :: id in rows && Matches(rows[id], KeyHash(d, key)) && !Expired(rows[id].expiresAt, now)
  }

  /** An accepted key has its time of use noted, when that write works; the row is found again by its own id. */
  function Apply(rows: Rows, op: Op, d: Digest): Rows {
    match op
    case Generate(key, _, _, _, _) => rows[KeyId(d, key) := NewRecord(d, op)]
    case Validate(key, at, stamp) =>
      var id := KeyId(d, key);
      if stamp.Some? && id in rows && Matches(rows[id], KeyHash(d, key)) && !Expired(rows[id].expiresAt, at)
      then rows[id := rows[id].(lastUsedAt := stamp)] else rows
    case Revoke(id) => if id in rows then rows[id := rows[id].(active := false)] else rows
  }

  function After(ops: seq<Op>, d: Digest): Rows {
    if ops == [] then map[] else Apply(After(Front(ops), d), Last(ops), d)
  }

  lemma CallAfter(ops: seq<Op>, op: Op, d: Digest)
    ensures After(ops + [op], d) == Apply(After(ops, d), op, d)
  {
    assert Front(ops + [op]) == ops && Last(ops + [op]) == op;
  }

  // ---------- What the history says ----------

  /** The call at `i` is the last one to store a row under `id`. */
  ghost predicate Stored(ops: seq<Op>, i: int, id: string, d: Digest) {
    && 0 <= i < |ops| && ops[i].Generate? && KeyId(d, ops[i].key) == id
    && (forall j :: i < j < |ops| && ops[j].Generate? ==> KeyId(d, ops[j].key) != id)
  }

  ghost predicate RevokedSince(ops: seq<Op>, i: int, id: string) {
    exists j :: 0 <= i < j < |ops| && ops[j] == Revoke(id)
  }

  /** The row under an id is what the last call to store it says, revoked or not. */
  ghost predicate RowTells(r: Record, ops: seq<Op>, i: int, id: string, d: Digest)
    requires 0 <= i < |ops| && ops[i].Generate?
  {
    && r.id == id && r.keyHash == KeyHash(d, ops[i].key) && r.expiresAt == ops[i].expires
    && r.name == ops[i].name && r.role == ops[i].role && r.createdAt == ops[i].at
    && (|ops[i].key| >= 12 ==> r.prefix == ops[i].key[..12])
    && (r.active <==> !RevokedSince(ops, i, id))
  }

  lemma {:induction false} RowsTellTheHistory(ops: seq<Op>, id: string, d: Digest)
    ensures id in After(ops, d) <==> exists i :: Stored(ops, i, id, d)
    ensures forall i :: Stored(ops, i, id, d) ==> id in After(ops, d) && RowTells(After(ops, d)[id], ops, i, id, d)
  {
    if ops != [] {
      var f, op, n := Front(ops), Last(ops), |ops| - 1;
      RowsTellTheHistory(f, id, d);
      if op.Generate? && KeyId(d, op.key) == id {
        assert Stored(ops, n, id, d);
        assert ops[n] == op;
        assert forall i :: Stored(ops, i, id, d) ==> i == n;
      } else {
        forall i ensures Stored(ops, i, id, d) <==> Stored(f, i, id, d) {
          OneMoreCall(ops, i, id, d);
        }
        forall i | Stored(ops, i, id, d) ensures id in After(ops, d) && RowTells(After(ops, d)[id], ops, i, id, d) {
          OneMoreCall(ops, i, id, d);
          assert Stored(f, i, id, d);
        }
      }
    }
  }

  lemma OneMoreCall(ops: seq<Op>, i: int, id: string, d: Digest)
    requires ops != [] && !(Last(ops).Generate? && KeyId(d, Last(ops).key) == id)
    ensures Stored(ops, i, id, d) <==> Stored(Front(ops), i, id, d)
    ensures 0 <= i < |ops| - 1 ==>
              (RevokedSince(ops, i, id) <==> RevokedSince(Front(ops), i, id) || Last(ops) == Revoke(id))
  {
    var f, n := Front(ops), |ops| - 1;
    assert forall j :: 0 <= j < n ==> f[j] == ops[j];
    if 0 <= i < n && RevokedSince(f, i, id) {
      var j :| i < j < |f| && f[j] == Revoke(id);
      assert ops[j] == Revoke(id);
    }
    if 0 <= i < n && Last(ops) == Revoke(id) {
      assert ops[n] == Revoke(id);
    }
  }

  /** The call at `i` decides whether `key` is good at time `now`: it stored the key's row, unrevoked and unexpired. */
  ghost predicate Vouches(ops: seq<Op>, i: int, key: string, now: int, d: Digest) {
    && Stored(ops, i, KeyId(d, key), d) && KeyHash(d, ops[i].key) == KeyHash(d, key)
    && !RevokedSince(ops, i, KeyId(d, key)) && !Expired(ops[i].expires, now)
  }

  lemma {:induction false} RowsAreInPlace(ops: seq<Op>, d: Digest, id: string)
    requires id in After(ops, d)
    ensures After(ops, d)[id].id == id && |After(ops, d)[id].keyHash| == 64 && After(ops, d)[id].keyHash[..16] == id
  {
    RowsTellTheHistory(ops, id, d);
    var i :| Stored(ops, i, id, d);
    IdFollowsHash(d, ops[i].key, ops[i].key);
  }

  /**
   With no assumption on the digest: a key is accepted exactly when the last call to store a row under
   its id stored this hash, and has been neither revoked nor outlived since.
   */
  lemma AcceptanceIsHistory(ops: seq<Op>, key: string, now: int, d: Digest)
    ensures Accepts(After(ops, d), d, key, now) <==> exists i :: Vouches(ops, i, key, now, d)
  {
    var rows, id := After(ops, d), KeyId(d, key);
    RowsTellTheHistory(ops, id, d);
    if Accepts(rows, d, key, now) {
      var k :| k in rows && Matches(rows[k], KeyHash(d, key)) && !Expired(rows[k].expiresAt, now);
      RowsAreInPlace(ops, d, k);
      IdFollowsHash(d, key, key);
      assert k == id;
      var i :| Stored(ops, i, id, d);
      assert RowTells(rows[id], ops, i, id, d);
      assert Vouches(ops, i, key, now, d);
    }
    if i :| Vouches(ops, i, key, now, d) {
      assert RowTells(rows[id], ops, i, id, d);
      assert id in rows && Matches(rows[id], KeyHash(d, key)) && !Expired(rows[id].expiresAt, now);
    }
  }

  /** No generated key has the eight bytes of another key's id. */
  ghost predicate NoCollision(ops: seq<Op>, key: string, d: Digest) {
    forall i :: 0 <= i < |ops| && ops[i].Generate? && d(ops[i].key)[..8] == d(key)[..8] ==> ops[i].key == key
  }

  /** The last time `key` itself was generated. */
  ghost predicate Generated(ops: seq<Op>, i: int, key: string) {
    && 0 <= i < |ops| && ops[i].Generate? && ops[i].key == key
    && (forall j :: i < j < |ops| && ops[j].Generate? ==> ops[j].key != key)
  }

  /**
   Without collisions on the id bytes: a key is accepted exactly when it was generated, has not been
   revoked since, and has not expired.
   */
  lemma KeysAreGoodUntilRevoked(ops: seq<Op>, key: string, now: int, d: Digest)
    requires NoCollision(ops, key, d)
    ensures Accepts(After(ops, d), d, key, now) <==>
            exists i :: Generated(ops, i, key) &&
                        (forall j :: i < j < |ops| ==> ops[j] != Revoke(KeyId(d, key))) &&
                        (ops[i].expires.Some? ==> now <= ops[i].expires.value)
  {
    AcceptanceIsHistory(ops, key, now, d);
    forall i ensures Stored(ops, i, KeyId(d, key), d) <==> Generated(ops, i, key) {
      forall j | 0 <= j < |ops| && ops[j].Generate?
        ensures KeyId(d, ops[j].key) == KeyId(d, key) <==> ops[j].key == key
      {
        IdFollowsHash(d, ops[j].key, key);
      }
    }
    if i :| Vouches(ops, i, key, now, d) {
      assert Generated(ops, i, key);
      forall j | i < j < |ops| ensures ops[j] != Revoke(KeyId(d, key)) {
      }
    }
    if i :| Generated(ops, i, key) && (forall j :: i < j < |ops| ==> ops[j] != Revoke(KeyId(d, key))) &&
            (ops[i].expires.Some? ==> now <= ops[i].expires.value) {
      assert Stored(ops, i, KeyId(d, key), d);
      assert Vouches(ops, i, key, now, d);
    }
  }

  /** A collision on the id bytes alone evicts: generating the second key makes the first one invalid at once. */
  lemma CollidingIdEvicts(ops: seq<Op>, first: string, op: Op, now: int, d: Digest)
    requires op.Generate? && d(op.key)[..8] == d(first)[..8] && d(op.key) != d(first)
    ensures !Accepts(After(ops + [op], d), d, first, now)
  {
    var g, n := ops + [op], |ops|;
    AcceptanceIsHistory(g, first, now, d);
    IdFollowsHash(d, op.key, first);
    HexIsInjective(d(op.key), d(first));
    assert g[n] == op;
    assert forall i :: Stored(g, i, KeyId(d, first), d) ==> i == n;
  }
}

/** The key store as the program has it. */
module ApiKeyServer {
  import opened ApiKeys
  import opened Sequences

  /** The record is there and carries the name and role of the call that stored it. */
  predicate SameHolder(rec: Option<Record>, op: Op) {
    rec.Some? && op.Generate? && rec.value.name == op.name && rec.value.role == op.role
  }

  class Store {
    const digest: Digest
    var rows: Rows
    /** The calls made so far. */
    ghost var history: seq<Op>

    ghost predicate Valid()
      reads this
    {
      rows == After(history, digest)
    }

    constructor (digest: Digest)
      ensures Valid() && history == [] && this.digest == digest
    {
      this.digest := digest;
      rows := map[];
      history := [];
    }

    /**
     The key text is a tag and the 32 random bytes. `expiry` is the time that the calendar gives for so
     many days from now; without a positive number of days the key never expires. Nothing is stored
     when no bytes are drawn or the write fails.
     */
    method Generate(raw: Option<seq<Byte>>, name: string, role: string, expiresDays: int, now: int, expiry: int,
                    saves: bool)
      returns (ok: bool, plaintext: string, expires: Option<int>)
      requires Valid() && (raw.Some? ==> |raw.value| == 32)
      modifies this
      ensures Valid() && (ok <==> raw.Some? && saves)
      ensures !ok ==> plaintext == "" && history == old(history)
      ensures ok ==> plaintext == "spow_" + Hex(raw.value) &&
                     history == old(history) + [Op.Generate(plaintext, name, role, expires, now)]
      ensures expires == if expiresDays > 0 then Some(expiry) else None
      ensures ok ==> (Accepts(rows, digest, plaintext, now) <==> (expires.Some? ==> now <= expires.value))
      ensures var id := Hex(digest(plaintext)[..8]);
              rows == if ok then old(rows)[id := Record(id, name, Hex(digest(plaintext)), plaintext[..12], role, true,
                                                        now, expires, None)]
                      else old(rows)
    {
      expires := if expiresDays > 0 then Some(expiry) else None;
      if raw.None? {
        return false, "", expires;
      }
      plaintext := "spow_" + Hex(raw.value);
      var hash := digest(plaintext);
      var rec := Record(Hex(hash[..8]), name, Hex(hash), plaintext[..12], role, true, now, expires, None);
      if !saves {
        return false, "", expires;
      }
      ghost var op := Op.Generate(plaintext, name, role, expires, now);
      assert rec == NewRecord(digest, op);
      CallAfter(history, op, digest);
      JustGenerated(history, op, digest, now);
      rows := rows[rec.id := rec];
      history := history + [op];
      ok := true;
    }

    /**
     The active row with the key's hash is looked up, refused when expired, and stamped when accepted.
     A failed lookup refuses the key, a failed stamp does not. The row returned carries the name and role
     of the call that vouches for the key.
     */
    method Validate(plaintext: string, now: int, stamp: Option<int>, found: bool)
      returns (ok: bool, rec: Option<Record>)
      requires Valid()
      modifies this
      ensures Valid()
      ensures history == if found then old(history) + [Op.Validate(plaintext, now, stamp)] else old(history)
      ensures ok <==> found && exists i :: Vouches(old(history), i, plaintext, now, digest)
      ensures var id, was := Hex(digest(plaintext)[..8]), old(rows);
              && (ok <==> found && id in was && was[id].keyHash == Hex(digest(plaintext)) && was[id].active &&
                          (was[id].expiresAt.Some? ==> now <= was[id].expiresAt.value))
              && rec == (if ok then Some(was[id]) else None)
              && rows == (if ok && stamp.Some? then was[id := was[id].(lastUsedAt := stamp)] else was)
      ensures ok ==> exists i :: Vouches(old(history), i, plaintext, now, digest) && SameHolder(rec, old(history)[i])
    {
      if !found {
        return false, None;
      }
      var hashStr := Hex(digest(plaintext));
      var matches := set id | id in rows && Matches(rows[id], hashStr);
      LookupDecides(history, digest, plaintext, now);
      CallAfter(history, Op.Validate(plaintext, now, stamp), digest);
      history := history + [Op.Validate(plaintext, now, stamp)];
      if matches == {} {
        assert KeyId(digest, plaintext) !in matches;
        return false, None;
      }
      var id :| id in matches;
      var k := rows[id];
      if k.expiresAt.Some? && now > k.expiresAt.value {
        return false, None;
      }
      if stamp.Some? {
        rows := rows[id := k.(lastUsedAt := stamp)];
      }
      return true, Some(k);
    }

    method Revoke(id: string, works: bool) returns (ok: bool)
      requires Valid()
      modifies this
      ensures Valid() && ok == works
      ensures rows == if works && id in old(rows) then old(rows)[id := old(rows)[id].(active := false)] else old(rows)
      ensures history == if works then old(history) + [Op.Revoke(id)] else old(history)
    {
      if works {
        if id in rows {
          rows := rows[id := rows[id].(active := false)];
        }
        CallAfter(history, Op.Revoke(id), digest);
        history := history + [Op.Revoke(id)];
      }
      ok := works;
    }
  }

  /** A row that matches the hash of a key stands under the key's id, so there is at most one. */
  lemma MatchIsInPlace(ops: seq<Op>, d: Digest, key: string)
    ensures var rows := After(ops, d);
            forall id :: id in rows && Matches(rows[id], KeyHash(d, key)) ==> id == KeyId(d, key)
  {
    forall id | id in After(ops, d) && Matches(After(ops, d)[id], KeyHash(d, key)) ensures id == KeyId(d, key) {
      RowsAreInPlace(ops, d, id);
      IdFollowsHash(d, key, key);
    }
  }

  /** The row under the key's own id decides whether the key is good. */
  lemma LookupDecides(ops: seq<Op>, d: Digest, key: string, now: int)
    ensures var rows, id := After(ops, d), KeyId(d, key);
            && (forall k :: k in rows && Matches(rows[k], KeyHash(d, key)) ==> k == id)
            && ((exists i :: Vouches(ops, i, key, now, d)) <==>
                id in rows && Matches(rows[id], KeyHash(d, key)) && !Expired(rows[id].expiresAt, now))
            && (forall i :: Vouches(ops, i, key, now, d) ==>
                  id in rows && rows[id].name == ops[i].name && rows[id].role == ops[i].role)
  {
    AcceptanceIsHistory(ops, key, now, d);
    MatchIsInPlace(ops, d, key);
    RowsTellTheHistory(ops, KeyId(d, key), d);
  }

  lemma JustGenerated(ops: seq<Op>, op: Op, d: Digest, now: int)
    requires op.Generate?
    ensures Accepts(After(ops + [op], d), d, op.key, now) <==> !Expired(op.expires, now)
  {
    var g, n := ops + [op], |ops|;
    AcceptanceIsHistory(g, op.key, now, d);
    assert g[n] == op && Stored(g, n, KeyId(d, op.key), d);
    assert forall i :: Stored(g, i, KeyId(d, op.key), d) ==> i == n;
    if !Expired(op.expires, now) {
      assert Vouches(g, n, op.key, now, d);
    }
  }
}
