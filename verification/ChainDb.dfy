/** A chain database as the scan reads it. */
module ChainDb {
  import opened Base
  import opened CxKeys

  // The entries, and the keys for which a read or an existence check fails.
  datatype Db = Db(entries: map<Bytes, Bytes>, getFails: set<Bytes>, hasFails: set<Bytes>)

  datatype ReadError = ReadFailed | BadHashLength | ZeroHash

  // An absent key is an error too: there is no common "not found".
  function Get(db: Db, key: Bytes): Option<Bytes> {
    if key in db.getFails || key !in db.entries then None else Some(db.entries[key])
  }

  function ReadOptional(db: Db, key: Bytes): Result<Option<Bytes>, ReadError> {
    var got := Get(db, key);
    if got.Some? && got.value != [] then Ok(got)
    else if key in db.hasFails then Err(ReadFailed)
    else if key !in db.entries then Ok(None)
    else if got.None? then Err(ReadFailed)
    else Ok(got)
  }

  // A value is returned only if it is there, "absent" only for absent keys.
  lemma ReadOptionalExact(db: Db, key: Bytes)
    ensures match ReadOptional(db, key)
            case Ok(Some(value)) => key in db.entries && value == db.entries[key]
            case Ok(None) => key !in db.entries
            case Err(_) => key in db.getFails + db.hasFails
  {
  }

  // A read fails exactly when the existence check does, unless a value was read already, and when a
  // key that is there cannot be read. An unreadable key that is absent is just absent.
  lemma ReadOptionalFails(db: Db, key: Bytes)
    ensures ReadOptional(db, key).Err?
       <==> (key in db.hasFails && (key in db.getFails || key !in db.entries || db.entries[key] == []))
            || (key in db.getFails && key in db.entries)
  {
  }

  function ReadCanonicalHash(db: Db, number: nat): Result<Option<Hash>, ReadError> {
    match ReadOptional(db, CanonicalKey(number))
    case Err(e) => Err(e)
    case Ok(None) => Ok(None)
    case Ok(Some(encoded)) =>
      if |encoded| != 32 then Err(BadHashLength)
      else if encoded == Zeros(32) then Err(ZeroHash)
      else Ok(Some(encoded))
  }

  // What the strict reader says of a readable entry.
  lemma CanonicalHashExact(db: Db, number: nat)
    requires ReadOptional(db, CanonicalKey(number)).Ok?
    ensures var key, r := CanonicalKey(number), ReadCanonicalHash(db, number);
            (r == Ok(None) <==> key !in db.entries)
            && (r == Err(BadHashLength) <==> key in db.entries && |db.entries[key]| != 32)
            && (r == Err(ZeroHash) <==> key in db.entries && |db.entries[key]| == 32
                                        && forall i :: 0 <= i < 32 ==> db.entries[key][i] == 0)
            && (r.Ok? && r.value.Some? ==> key in db.entries && r.value.value == db.entries[key])
  {
    ReadOptionalExact(db, CanonicalKey(number));
    ZerosExact(32);
  }

  lemma {:induction false} ZerosExact(count: nat)
    ensures forall i :: 0 <= i < count ==> Zeros(count)[i] == 0
  {
    if count > 0 {
      ZerosExact(count - 1);
    }
  }

  // The library's reader: no errors, the zero hash for an absent or unreadable key, other
  // lengths cropped or padded on the left.
  function LooseCanonicalHash(db: Db, number: nat): Hash {
    match Get(db, CanonicalKey(number))
    case None => Zeros(32)
    case Some(encoded) =>
      if |encoded| > 32 then encoded[|encoded| - 32..] else Zeros(32 - |encoded|) + encoded
  }

  // The loose hash has the value's bytes from the last one back, and zeros before them.
  lemma LooseAligned(db: Db, number: nat, i: nat)
    requires i < 32
    ensures var key, r := CanonicalKey(number), LooseCanonicalHash(db, number);
            |r| == 32
            && r[31 - i] == if key in db.getFails || key !in db.entries || i >= |db.entries[key]| then 0
                            else db.entries[key][|db.entries[key]| - 1 - i]
  {
    ZerosExact(32);
    if CanonicalKey(number) in db.entries && |db.entries[CanonicalKey(number)]| <= 32 {
      ZerosExact(32 - |db.entries[CanonicalKey(number)]|);
    }
  }

  // Where the strict reader finds a hash the loose one finds the same, unless only the
  // existence check works.
  lemma LooseIsStrict(db: Db, number: nat)
    requires ReadCanonicalHash(db, number).Ok? && ReadCanonicalHash(db, number).value.Some?
    ensures LooseCanonicalHash(db, number) == ReadCanonicalHash(db, number).value.value
  {
    assert Zeros(0) + db.entries[CanonicalKey(number)] == db.entries[CanonicalKey(number)];
  }
}
