/** The reduced lookup index of a destination database, and why a receipt scan may read it instead. */
module CxSnapshot {
  import opened Base
  import opened CxKeys
  import opened ChainDb
  import opened CrossShard

  datatype BuildError = Undecodable | ConflictingHashes | IterationFailed

  // ---- the write batch -------------------------------------------------

  const BATCH_LIMIT: nat := 4 * 1024 * 1024

  type Table = map<Bytes, Bytes>

  function PutAll(table: Table, puts: seq<Item>): Table
    decreases |puts|
  {
    if puts == [] then table
    else PutAll(table, puts[..|puts| - 1])[puts[|puts| - 1].key := puts[|puts| - 1].value]
  }

  // An output database written through a batch that is flushed whenever it grows past a limit.
  class BatchWriter {
    var output: Table
    var batch: seq<Item>
    var size: nat

    // A batch of size zero is empty, since no value put into it is.
    ghost predicate Valid()
      reads this
    {
      size == 0 ==> batch == []
    }

    ghost function Contents(): Table
      reads this
    {
      PutAll(output, batch)
    }

    constructor ()
      ensures Valid() && Contents() == map[]
    {
      output, batch, size := map[], [], 0;
    }

    method Put(key: Bytes, value: Bytes)
      requires Valid() && value != []
      modifies this
      ensures Valid() && Contents() == old(Contents())[key := value]
    {
      assert (batch + [Item(key, value)])[..|batch|] == batch;
      batch, size := batch + [Item(key, value)], size + |value|;
      if size >= BATCH_LIMIT {
        Write();
      }
    }

    method Write()
      modifies this
      ensures Valid() && output == old(Contents()) && batch == [] && size == 0
    {
      for i := 0 to |batch|
        invariant batch == old(batch) && size == old(size)
        invariant output == PutAll(old(output), batch[..i])
      {
        assert batch[..i + 1][..i] == batch[..i];
        output := output[batch[i].key := batch[i].value];
      }
      assert batch[..|batch|] == batch;
      batch, size := [], 0;
    }

    // The last write, left out for a batch without size.
    method Close()
      requires Valid()
      modifies this
      ensures output == old(Contents())
    {
      if size != 0 {
        Write();
      }
    }
  }

  // ---- what is exported ------------------------------------------------

  predicate IsLookup(key: Bytes) {
    |key| == 34 && LOOKUP_PREFIX <= key
  }

  // A lookup is kept when it names a canonical block within the cutoff.
  predicate Kept(source: Db, cutoff: nat, codec: Codec, key: Bytes) {
    IsLookup(key) && key in source.entries && codec.lookup(source.entries[key]).Some?
    && var lookup := codec.lookup(source.entries[key]).value;
       lookup.block <= cutoff && LooseCanonicalHash(source, lookup.block) == lookup.blockHash
  }

  predicate KeptIn(source: Db, cutoff: nat, codec: Codec, key: Bytes, block: nat) {
    Kept(source, cutoff, codec, key) && codec.lookup(source.entries[key]).value.block == block
  }

  // The index holds the kept lookups with their values and, for the blocks they name, the
  // canonical hash; nothing else.
  ghost predicate IsIndex(source: Db, cutoff: nat, codec: Codec, table: Table) {
    (forall key :: Kept(source, cutoff, codec, key) ==> key in table && table[key] == source.entries[key])
    && (forall key, block: Uint64 :: KeptIn(source, cutoff, codec, key, block) ==>
          CanonicalKey(block) in table && table[CanonicalKey(block)] == LooseCanonicalHash(source, block))
    && (forall key :: key in table ==> Kept(source, cutoff, codec, key)
                                       || exists lookup, block: Uint64 :: KeptIn(source, cutoff, codec, lookup, block)
                                                                          && key == CanonicalKey(block))
  }

  // A kept lookup among some keys names the block.
  ghost predicate Named(source: Db, cutoff: nat, codec: Codec, keys: seq<Bytes>, block: nat) {
    exists i :: 0 <= i < |keys| && KeptIn(source, cutoff, codec, keys[i], block)
  }

  lemma NamedStill(source: Db, cutoff: nat, codec: Codec, keys: seq<Bytes>, key: Bytes, block: nat)
    ensures Named(source, cutoff, codec, keys, block) ==> Named(source, cutoff, codec, keys + [key], block)
    ensures KeptIn(source, cutoff, codec, key, block) ==> Named(source, cutoff, codec, keys + [key], block)
  {
    assert (keys + [key])[|keys|] == key;
    if i :| 0 <= i < |keys| && KeptIn(source, cutoff, codec, keys[i], block) {
      assert (keys + [key])[i] == keys[i];
    }
  }

  // The blocks that some lookups among the first ones name.
  ghost predicate Exported(source: Db, cutoff: nat, codec: Codec, keys: seq<Bytes>, blocks: map<Uint64, Hash>) {
    (forall i :: 0 <= i < |keys| && Kept(source, cutoff, codec, keys[i]) ==>
       codec.lookup(source.entries[keys[i]]).value.block in blocks)
    && forall block :: block in blocks ==>
         blocks[block] == LooseCanonicalHash(source, block) && Named(source, cutoff, codec, keys, block)
  }

  ghost predicate CopiesKept(source: Db, cutoff: nat, codec: Codec, keys: seq<Bytes>, table: Table) {
    (forall i :: 0 <= i < |keys| && Kept(source, cutoff, codec, keys[i]) ==> keys[i] in table)
    && forall key :: key in table ==> Kept(source, cutoff, codec, key) && table[key] == source.entries[key]
  }

  // No stored value is empty, and an empty value does not decode.
  ghost predicate Decodes(codec: Codec) {
    codec.lookup([]).None?
  }

  lemma NothingExported(source: Db, cutoff: nat, codec: Codec)
    ensures Exporting(source, cutoff, codec, [], map[], map[], Counters(0, 0, 0, 0, 0))
  {
  }

  lemma KeyDropped(source: Db, cutoff: nat, codec: Codec, keys: seq<Bytes>, blocks: map<Uint64, Hash>, table: Table,
                   key: Bytes)
    requires Exported(source, cutoff, codec, keys, blocks) && CopiesKept(source, cutoff, codec, keys, table)
    requires !Kept(source, cutoff, codec, key)
    ensures Exported(source, cutoff, codec, keys + [key], blocks)
    ensures CopiesKept(source, cutoff, codec, keys + [key], table)
  {
    forall block | block in blocks ensures Named(source, cutoff, codec, keys + [key], block) {
      NamedStill(source, cutoff, codec, keys, key, block);
    }
  }

  lemma KeyExported(source: Db, cutoff: nat, codec: Codec, keys: seq<Bytes>, blocks: map<Uint64, Hash>, key: Bytes)
    requires Exported(source, cutoff, codec, keys, blocks) && Kept(source, cutoff, codec, key)
    ensures var lookup := codec.lookup(source.entries[key]).value;
            Exported(source, cutoff, codec, keys + [key], blocks[lookup.block := lookup.blockHash])
  {
    var lookup := codec.lookup(source.entries[key]).value;
    var more := blocks[lookup.block := lookup.blockHash];
    forall block | block in more ensures Named(source, cutoff, codec, keys + [key], block) {
      NamedStill(source, cutoff, codec, keys, key, block);
    }
  }

  lemma KeyCopied(source: Db, cutoff: nat, codec: Codec, keys: seq<Bytes>, table: Table, key: Bytes)
    requires CopiesKept(source, cutoff, codec, keys, table) && Kept(source, cutoff, codec, key)
    ensures CopiesKept(source, cutoff, codec, keys + [key], table[key := source.entries[key]])
  {
  }

  // ---- the export ------------------------------------------------------

  // The counters of the summary.
  datatype Counters = Counters(scanned: nat, lookups: nat, afterCutoff: nat, nonCanonical: nat, exported: nat)

  // What the counters are for some keys: every readable lookup is past the cutoff, off the canonical
  // chain, or kept.
  function CountsOf(source: Db, cutoff: nat, codec: Codec, keys: seq<Bytes>): Counters
    decreases |keys|
  {
    if keys == [] then Counters(0, 0, 0, 0, 0)
    else CountKey(source, cutoff, codec, CountsOf(source, cutoff, codec, keys[..|keys| - 1]), keys[|keys| - 1])
  }

  predicate LateLookup(source: Db, cutoff: nat, codec: Codec, key: Bytes) {
    IsLookup(key) && key in source.entries && codec.lookup(source.entries[key]).Some?
    && codec.lookup(source.entries[key]).value.block > cutoff
  }

  predicate StaleLookup(source: Db, cutoff: nat, codec: Codec, key: Bytes) {
    IsLookup(key) && key in source.entries && codec.lookup(source.entries[key]).Some?
    && var lookup := codec.lookup(source.entries[key]).value;
       lookup.block <= cutoff && LooseCanonicalHash(source, lookup.block) != lookup.blockHash
  }

  function CountKey(source: Db, cutoff: nat, codec: Codec, c: Counters, key: Bytes): Counters {
    Counters(c.scanned + 1, c.lookups + Bit(IsLookup(key)), c.afterCutoff + Bit(LateLookup(source, cutoff, codec, key)),
             c.nonCanonical + Bit(StaleLookup(source, cutoff, codec, key)),
             c.exported + Bit(Kept(source, cutoff, codec, key)))
  }

  // Where every lookup is readable each is counted in exactly one of three ways.
  lemma {:induction false} LookupsPartition(source: Db, cutoff: nat, codec: Codec, keys: seq<Bytes>)
    requires forall i :: 0 <= i < |keys| ==> keys[i] in source.entries && !Unreadable(source, codec, keys[i])
    ensures var c := CountsOf(source, cutoff, codec, keys);
            c.scanned == |keys| && c.lookups == c.afterCutoff + c.nonCanonical + c.exported
    decreases |keys|
  {
    if keys != [] {
      LookupsPartition(source, cutoff, codec, keys[..|keys| - 1]);
    }
  }

  function Lookups(): Bytes -> bool {
    (key: Bytes) => |key| == 34 && LOOKUP_PREFIX <= key
  }

  // What a lookup key's value says, if it can be read.
  function ReadLookup(source: Db, codec: Codec, key: Bytes): Option<Lookup> {
    if Lookups()(key) && key in source.entries then codec.lookup(source.entries[key]) else None
  }

  function PastCutoff(source: Db, cutoff: nat, codec: Codec): Bytes -> bool {
    (key: Bytes) => ReadLookup(source, codec, key).Some? && ReadLookup(source, codec, key).value.block > cutoff
  }

  predicate OnChain(source: Db, lookup: Lookup) {
    lookup.blockHash == LooseCanonicalHash(source, lookup.block)
  }

  function OffChain(source: Db, cutoff: nat, codec: Codec): Bytes -> bool {
    (key: Bytes) =>
      var lookup := ReadLookup(source, codec, key);
      lookup.Some? && lookup.value.block <= cutoff && !OnChain(source, lookup.value)
  }

  function Canonical(source: Db, cutoff: nat, codec: Codec): Bytes -> bool {
    (key: Bytes) =>
      var lookup := ReadLookup(source, codec, key);
      lookup.Some? && lookup.value.block <= cutoff && OnChain(source, lookup.value)
  }

  // Every counter on its own: a lookup past the cutoff is never asked for its hash.
  lemma {:induction false} CountersExact(source: Db, cutoff: nat, codec: Codec, keys: seq<Bytes>)
    ensures CountsOf(source, cutoff, codec, keys)
         == Counters(|keys|, CountWhere(keys, Lookups()), CountWhere(keys, PastCutoff(source, cutoff, codec)),
                     CountWhere(keys, OffChain(source, cutoff, codec)),
                     CountWhere(keys, Canonical(source, cutoff, codec)))
    decreases |keys|
  {
    if keys != [] {
      CountersExact(source, cutoff, codec, keys[..|keys| - 1]);
      KeyJudged(source, cutoff, codec, keys[|keys| - 1]);
    }
  }

  lemma KeyJudged(source: Db, cutoff: nat, codec: Codec, key: Bytes)
    ensures IsLookup(key) <==> Lookups()(key)
    ensures LateLookup(source, cutoff, codec, key) <==> PastCutoff(source, cutoff, codec)(key)
    ensures StaleLookup(source, cutoff, codec, key) <==> OffChain(source, cutoff, codec)(key)
    ensures Kept(source, cutoff, codec, key) <==> Canonical(source, cutoff, codec)(key)
  {
  }

  // What the loop has exported of some keys, and that it has counted them.
  ghost predicate Exporting(source: Db, cutoff: nat, codec: Codec, keys: seq<Bytes>, blocks: map<Uint64, Hash>,
                            table: Table, counters: Counters) {
    Exported(source, cutoff, codec, keys, blocks) && CopiesKept(source, cutoff, codec, keys, table)
    && counters == CountsOf(source, cutoff, codec, keys)
  }

  lemma KeyCounted(source: Db, cutoff: nat, codec: Codec, keys: seq<Bytes>, key: Bytes)
    ensures CountsOf(source, cutoff, codec, keys + [key])
         == CountKey(source, cutoff, codec, CountsOf(source, cutoff, codec, keys), key)
  {
    assert (keys + [key])[..|keys|] == keys;
  }

  lemma ExportingDrops(source: Db, cutoff: nat, codec: Codec, keys: seq<Bytes>, blocks: map<Uint64, Hash>,
                       table: Table, counters: Counters, key: Bytes, counted: Counters)
    requires Exporting(source, cutoff, codec, keys, blocks, table, counters) && !Kept(source, cutoff, codec, key)
    requires counted == CountKey(source, cutoff, codec, counters, key)
    ensures Exporting(source, cutoff, codec, keys + [key], blocks, table, counted)
  {
    KeyDropped(source, cutoff, codec, keys, blocks, table, key);
    KeyCounted(source, cutoff, codec, keys, key);
  }

  lemma ExportingKeeps(source: Db, cutoff: nat, codec: Codec, keys: seq<Bytes>, blocks: map<Uint64, Hash>,
                       table: Table, counters: Counters, key: Bytes, counted: Counters)
    requires Exporting(source, cutoff, codec, keys, blocks, table, counters) && Kept(source, cutoff, codec, key)
    requires counted == CountKey(source, cutoff, codec, counters, key)
    ensures var lookup := codec.lookup(source.entries[key]).value;
            Exporting(source, cutoff, codec, keys + [key], blocks[lookup.block := lookup.blockHash],
                      table[key := source.entries[key]], counted)
    ensures var lookup := codec.lookup(source.entries[key]).value;
            lookup.block in blocks ==> blocks[lookup.block] == lookup.blockHash
  {
    KeyExported(source, cutoff, codec, keys, blocks, key);
    KeyCopied(source, cutoff, codec, keys, table, key);
    KeyCounted(source, cutoff, codec, keys, key);
  }

  // An unreadable lookup among the keys of an iteration.
  predicate Unreadable(source: Db, codec: Codec, key: Bytes)
    requires key in source.entries
  {
    IsLookup(key) && codec.lookup(source.entries[key]).None?
  }

  // One turn of the loop over the lookup prefix.
  method ExportLookup(source: Db, ghost done: seq<Bytes>, key: Bytes, cutoff: nat, codec: Codec, writer: BatchWriter,
                      blocks: map<Uint64, Hash>, counters: Counters)
    returns (more: map<Uint64, Hash>, counted: Counters, ok: bool)
    requires writer.Valid() && Decodes(codec) && key in source.entries
    requires Exporting(source, cutoff, codec, done, blocks, writer.Contents(), counters)
    modifies writer
    ensures writer.Valid() && (ok <==> !Unreadable(source, codec, key))
    ensures ok ==> Exporting(source, cutoff, codec, done + [key], more, writer.Contents(), counted)
  {
    more, counted, ok := blocks, counters.(scanned := counters.scanned + 1), true;
    var value := source.entries[key];
    if !IsLookup(key) {
      ExportingDrops(source, cutoff, codec, done, blocks, writer.Contents(), counters, key, counted);
      return;
    }
    counted := counted.(lookups := counted.lookups + 1);
    if codec.lookup(value).None? {
      ok := false;
      return;
    }
    var entry := codec.lookup(value).value;
    if entry.block > cutoff {
      counted := counted.(afterCutoff := counted.afterCutoff + 1);
      ExportingDrops(source, cutoff, codec, done, blocks, writer.Contents(), counters, key, counted);
      return;
    }
    if LooseCanonicalHash(source, entry.block) != entry.blockHash {
      counted := counted.(nonCanonical := counted.nonCanonical + 1);
      ExportingDrops(source, cutoff, codec, done, blocks, writer.Contents(), counters, key, counted);
      return;
    }
    counted := counted.(exported := counted.exported + 1);
    ExportingKeeps(source, cutoff, codec, done, blocks, writer.Contents(), counters, key, counted);
    // The "conflicting canonical hashes" exit is never taken.
    if entry.block in blocks && blocks[entry.block] != entry.blockHash {
      assert false;
    }
    more := blocks[entry.block := entry.blockHash];
    writer.Put(key, value);
  }

  // The loop. The counters are those of the keys, each lookup is counted in exactly one of three
  // ways, and no two of them name different canonical hashes for a block.
  method ExportLookups(source: Db, keys: seq<Bytes>, cutoff: nat, codec: Codec, writer: BatchWriter)
    returns (blocks: map<Uint64, Hash>, counters: Counters, error: Option<BuildError>)
    requires writer.Valid() && writer.Contents() == map[] && Decodes(codec)
    requires forall i :: 0 <= i < |keys| ==> keys[i] in source.entries
    modifies writer
    ensures writer.Valid()
    ensures error == None <==> forall i :: 0 <= i < |keys| ==> !Unreadable(source, codec, keys[i])
    ensures error == None || error == Some(Undecodable)
    ensures error == None ==> Exporting(source, cutoff, codec, keys, blocks, writer.Contents(), counters)
    ensures error == None ==> counters == CountsOf(source, cutoff, codec, keys)
    ensures error == None ==> counters.lookups == counters.afterCutoff + counters.nonCanonical + counters.exported
  {
    blocks, counters := map[], Counters(0, 0, 0, 0, 0);
    NothingExported(source, cutoff, codec);
    for i := 0 to |keys|
      invariant writer.Valid()
      invariant forall j :: 0 <= j < i ==> !Unreadable(source, codec, keys[j])
      invariant Exporting(source, cutoff, codec, keys[..i], blocks, writer.Contents(), counters)
    {
      assert keys[..i + 1] == keys[..i] + [keys[i]];
      var ok;
      blocks, counters, ok := ExportLookup(source, keys[..i], keys[i], cutoff, codec, writer, blocks, counters);
      if !ok {
        return blocks, counters, Some(Undecodable);
      }
    }
    assert keys[..|keys|] == keys;
    LookupsPartition(source, cutoff, codec, keys);
    error := None;
  }

  // The hashes of the exported blocks, over what the table held before.
  ghost predicate HasHashes(blocks: map<Uint64, Hash>, table: Table) {
    forall block :: block in blocks ==> CanonicalKey(block) in table && table[CanonicalKey(block)] == blocks[block]
  }

  ghost predicate KeepsOthers(before: Table, table: Table) {
    forall key :: key in before && |key| != 10 ==> key in table && table[key] == before[key]
  }

  ghost predicate IsBlockKey(blocks: map<Uint64, Hash>, key: Bytes) {
    exists block :: block in blocks && key == CanonicalKey(block)
  }

  ghost predicate OnlyHashes(before: Table, blocks: map<Uint64, Hash>, table: Table) {
    forall key :: key in table && key !in before ==> IsBlockKey(blocks, key)
  }

  ghost predicate AddsHashes(before: Table, blocks: map<Uint64, Hash>, table: Table) {
    HasHashes(blocks, table) && KeepsOthers(before, table) && OnlyHashes(before, blocks, table)
  }

  lemma HashThere(seen: map<Uint64, Hash>, table: Table, block: Uint64, hash: Hash)
    requires HasHashes(seen, table) && block !in seen
    ensures HasHashes(seen[block := hash], table[CanonicalKey(block) := hash])
  {
    forall b | b in seen ensures CanonicalKey(b) != CanonicalKey(block) {
      BlockKeysApart(b, block);
    }
  }

  lemma OnlyHashAdded(before: Table, seen: map<Uint64, Hash>, table: Table, block: Uint64, hash: Hash)
    requires OnlyHashes(before, seen, table)
    ensures OnlyHashes(before, seen[block := hash], table[CanonicalKey(block) := hash])
  {
    forall key | key in table[CanonicalKey(block) := hash] && key !in before
      ensures IsBlockKey(seen[block := hash], key)
    {
      if key == CanonicalKey(block) {
        BlockKeyFound(seen, block, hash);
      } else {
        BlockKeyStays(seen, block, hash, key);
      }
    }
  }

  lemma HashAdded(before: Table, seen: map<Uint64, Hash>, table: Table, block: Uint64, hash: Hash)
    requires AddsHashes(before, seen, table) && block !in seen
    ensures AddsHashes(before, seen[block := hash], table[CanonicalKey(block) := hash])
  {
    HashThere(seen, table, block, hash);
    OnlyHashAdded(before, seen, table, block, hash);
  }

  lemma BlockKeyFound(seen: map<Uint64, Hash>, block: Uint64, hash: Hash)
    ensures IsBlockKey(seen[block := hash], CanonicalKey(block))
  {
    assert block in seen[block := hash];
  }

  lemma BlockKeyStays(seen: map<Uint64, Hash>, block: Uint64, hash: Hash, key: Bytes)
    requires IsBlockKey(seen, key)
    ensures IsBlockKey(seen[block := hash], key)
  {
    var b :| b in seen && key == CanonicalKey(b);
    assert b in seen[block := hash];
  }

  lemma NoHashes(before: Table)
    ensures AddsHashes(before, map[], before)
  {
  }

  lemma BlockKeysApart(a: Uint64, b: Uint64)
    requires a != b
    ensures CanonicalKey(a) != CanonicalKey(b)
  {
    Pow2At64();
    if CanonicalKey(a) == CanonicalKey(b) {
      CanonicalKeyInjective(a, b);
    }
  }

  // The part of a map that an iteration has visited.
  ghost predicate Visited(blocks: map<Uint64, Hash>, rest: set<Uint64>, seen: map<Uint64, Hash>) {
    (forall b :: b in rest ==> b in blocks)
    && (forall b :: b in seen <==> b in blocks && b !in rest)
    && (forall b :: b in seen ==> seen[b] == blocks[b])
  }

  lemma VisitedNone(blocks: map<Uint64, Hash>)
    ensures Visited(blocks, blocks.Keys, map[])
  {
  }

  lemma VisitedNext(blocks: map<Uint64, Hash>, rest: set<Uint64>, seen: map<Uint64, Hash>, block: Uint64)
    requires Visited(blocks, rest, seen) && block in rest
    ensures Visited(blocks, rest - {block}, seen[block := blocks[block]]) && block !in seen
  {
  }

  lemma VisitedAll(blocks: map<Uint64, Hash>, seen: map<Uint64, Hash>)
    requires Visited(blocks, {}, seen)
    ensures seen == blocks
  {
  }

  method ExportHashes(blocks: map<Uint64, Hash>, writer: BatchWriter) returns (count: nat)
    requires writer.Valid()
    modifies writer
    ensures writer.Valid() && AddsHashes(old(writer.Contents()), blocks, writer.Contents()) && count == |blocks|
  {
    count := 0;
    var rest := blocks.Keys;
    ghost var before := writer.Contents();
    ghost var seen: map<Uint64, Hash> := map[];
    NoHashes(before);
    VisitedNone(blocks);
    while rest != {}
      invariant writer.Valid() && AddsHashes(before, seen, writer.Contents())
      invariant Visited(blocks, rest, seen) && count + |rest| == |blocks|
      decreases |rest|
    {
      var block :| block in rest;
      VisitedNext(blocks, rest, seen, block);
      HashAdded(before, seen, writer.Contents(), block, blocks[block]);
      writer.Put(CanonicalKey(block), blocks[block]);
      count := count + 1;
      seen := seen[block := blocks[block]];
      rest := rest - {block};
    }
    VisitedAll(blocks, seen);
  }

  lemma LookupsComplete(source: Db, keys: seq<Bytes>, cutoff: nat, codec: Codec, lookups: Table,
                        blocks: map<Uint64, Hash>, key: Bytes)
    requires forall key :: key in source.entries && LOOKUP_PREFIX <= key ==> key in keys
    requires Exported(source, cutoff, codec, keys, blocks) && CopiesKept(source, cutoff, codec, keys, lookups)
    requires Kept(source, cutoff, codec, key)
    ensures key in lookups && lookups[key] == source.entries[key]
    ensures codec.lookup(source.entries[key]).value.block in blocks
  {
    var i :| 0 <= i < |keys| && keys[i] == key;
  }

  lemma OnlyIndexed(source: Db, keys: seq<Bytes>, cutoff: nat, codec: Codec, blocks: map<Uint64, Hash>, key: Bytes)
    requires Exported(source, cutoff, codec, keys, blocks) && IsBlockKey(blocks, key)
    ensures exists lookup, block: Uint64 :: KeptIn(source, cutoff, codec, lookup, block) && key == CanonicalKey(block)
  {
    var block :| block in blocks && key == CanonicalKey(block);
    var i :| 0 <= i < |keys| && KeptIn(source, cutoff, codec, keys[i], block);
  }

  lemma IndexComplete(source: Db, keys: seq<Bytes>, cutoff: nat, codec: Codec, lookups: Table,
                      blocks: map<Uint64, Hash>, table: Table)
    requires forall key :: key in source.entries && LOOKUP_PREFIX <= key ==> key in keys
    requires Exported(source, cutoff, codec, keys, blocks) && CopiesKept(source, cutoff, codec, keys, lookups)
    requires AddsHashes(lookups, blocks, table)
    ensures IsIndex(source, cutoff, codec, table)
  {
    forall key | Kept(source, cutoff, codec, key)
      ensures key in lookups && lookups[key] == source.entries[key]
      ensures codec.lookup(source.entries[key]).value.block in blocks
    {
      LookupsComplete(source, keys, cutoff, codec, lookups, blocks, key);
    }
    forall key | key in table && key !in lookups
      ensures exists lookup, block: Uint64 :: KeptIn(source, cutoff, codec, lookup, block) && key == CanonicalKey(block)
    {
      OnlyIndexed(source, keys, cutoff, codec, blocks, key);
    }
  }

  // The blocks that the kept lookups name.
  function NamedBlocks(source: Db, cutoff: nat, codec: Codec, keys: seq<Bytes>): set<Uint64>
    decreases |keys|
  {
    if keys == [] then {}
    else
      var before, last := NamedBlocks(source, cutoff, codec, keys[..|keys| - 1]), keys[|keys| - 1];
      if Kept(source, cutoff, codec, last) then before + {codec.lookup(source.entries[last]).value.block} else before
  }

  lemma {:induction false} NamedAre(source: Db, cutoff: nat, codec: Codec, keys: seq<Bytes>, block: Uint64)
    ensures block in NamedBlocks(source, cutoff, codec, keys) <==> Named(source, cutoff, codec, keys, block)
    decreases |keys|
  {
    if keys != [] {
      var front, last := keys[..|keys| - 1], keys[|keys| - 1];
      assert keys == front + [last];
      NamedAre(source, cutoff, codec, front, block);
      NamedStill(source, cutoff, codec, front, last, block);
      if i :| 0 <= i < |keys| && KeptIn(source, cutoff, codec, keys[i], block) {
        assert i < |front| ==> KeptIn(source, cutoff, codec, front[i], block);
      }
    }
  }

  lemma ExportedAreNamed(source: Db, cutoff: nat, codec: Codec, keys: seq<Bytes>, blocks: map<Uint64, Hash>)
    requires Exported(source, cutoff, codec, keys, blocks)
    ensures blocks.Keys == NamedBlocks(source, cutoff, codec, keys)
  {
    forall block: Uint64 ensures block in blocks <==> block in NamedBlocks(source, cutoff, codec, keys) {
      NamedAre(source, cutoff, codec, keys, block);
      if i :| 0 <= i < |keys| && KeptIn(source, cutoff, codec, keys[i], block) {
        assert Kept(source, cutoff, codec, keys[i]);
      }
    }
  }

  // What the export leaves: the table, the counters and the number of hashes written.
  datatype Export = Export(table: Table, counters: Counters, hashes: nat)

  // The whole export. `keys` is the iteration over the lookup prefix.
  method Build(source: Db, keys: seq<Bytes>, iterationFails: bool, cutoff: nat, codec: Codec)
    returns (r: Result<Export, BuildError>)
    requires Decodes(codec)
    requires forall key :: key in keys <==> key in source.entries && LOOKUP_PREFIX <= key
    ensures r.Ok? ==> IsIndex(source, cutoff, codec, r.value.table)
    ensures r.Ok? ==> r.value.counters == CountsOf(source, cutoff, codec, keys)
    ensures r.Ok? ==> r.value.hashes == |NamedBlocks(source, cutoff, codec, keys)|
    ensures r.Ok? <==> !iterationFails && forall key :: key in source.entries ==> !Unreadable(source, codec, key)
    ensures r != Err(ConflictingHashes)
  {
    var writer := new BatchWriter();
    assert forall i :: 0 <= i < |keys| ==> keys[i] in keys;
    var blocks, counters, error := ExportLookups(source, keys, cutoff, codec, writer);
    if error.Some? {
      return Err(error.value);
    }
    if iterationFails {
      return Err(BuildError.IterationFailed);
    }
    ghost var lookups := writer.Contents();
    var hashes := ExportHashes(blocks, writer);
    ExportedAreNamed(source, cutoff, codec, keys, blocks);
    IndexComplete(source, keys, cutoff, codec, lookups, blocks, writer.Contents());
    writer.Close();
    forall key | key in source.entries ensures !Unreadable(source, codec, key) {
      if IsLookup(key) {
        var i :| 0 <= i < |keys| && keys[i] == key;
      }
    }
    r := Ok(Export(writer.output, counters, hashes));
  }
}
