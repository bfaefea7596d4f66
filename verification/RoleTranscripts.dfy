/** The bounded role transcript: a streaming accumulator against a definition of grouping. */
module RoleTranscripts {
  import opened CodeUnits
  import opened Wrappers

  datatype Kind = Response | Thought

  datatype Key = Key(messageId: string, kind: Kind)

  datatype Chunk = Chunk(key: Key, text: Text)

  datatype Block = Block(key: Key, text: Text)

  const CHARACTER_LIMIT := 65536
  const BLOCK_LIMIT := 128

  // ---- Grouping, by definition ----

  /** The keys of a stream in the order they are first seen. */
  function Keys(chunks: seq<Chunk>): seq<Key> {
    if chunks == [] then []
    else
      var n := |chunks| - 1;
      var before := Keys(chunks[..n]);
      if chunks[n].key in before then before else before + [chunks[n].key]
  }

  function TextFor(chunks: seq<Chunk>, key: Key): Text {
    if chunks == [] then []
    else
      var n := |chunks| - 1;
      TextFor(chunks[..n], key) + (if chunks[n].key == key then chunks[n].text else [])
  }

  function Total(chunks: seq<Chunk>): nat {
    if chunks == [] then 0 else Total(chunks[..|chunks| - 1]) + |chunks[|chunks| - 1].text|
  }

  function NonEmpty(chunks: seq<Chunk>): seq<Chunk> {
    if chunks == [] then []
    else
      var n := |chunks| - 1;
      NonEmpty(chunks[..n]) + (if chunks[n].text == [] then [] else [chunks[n]])
  }

  predicate Groups(blocks: seq<Block>, chunks: seq<Chunk>) {
    && |blocks| == |Keys(chunks)|
    && forall k :: 0 <= k < |blocks| ==> blocks[k] == Block(Keys(chunks)[k], TextFor(chunks, Keys(chunks)[k]))
  }

  // ---- The accumulator ----

  datatype Transcript = Transcript(blocks: seq<Block>, characters: nat, truncated: bool)

  const Empty := Transcript([], 0, false)

  function IndexOf(blocks: seq<Block>, key: Key): (r: Option<nat>)
    ensures r.Some? ==> r.value < |blocks| && blocks[r.value].key == key
    ensures r.None? ==> forall k :: 0 <= k < |blocks| ==> blocks[k].key != key
  {
    if blocks == [] then None
    else if blocks[0].key == key then Some(0)
    else
      var rest := IndexOf(blocks[1..], key);
      if rest.None? then None else Some(rest.value + 1)
  }

  function AddText(blocks: seq<Block>, key: Key, text: Text): seq<Block> {
    match IndexOf(blocks, key)
    case None => blocks + [Block(key, text)]
    case Some(k) => blocks[k := Block(key, blocks[k].text + text)]
  }

  /** How many characters of the chunk are taken in, when it is not empty and nothing was omitted before. */
  function Room(t: Transcript, chunk: Chunk): (n: nat)
    requires t.characters <= CHARACTER_LIMIT
    ensures n <= |chunk.text|
  {
    var remaining := CHARACTER_LIMIT - t.characters;
    if remaining == 0 || (IndexOf(t.blocks, chunk.key).None? && |t.blocks| == BLOCK_LIMIT) then 0
    else if |chunk.text| <= remaining then |chunk.text| else remaining
  }

  function Append(t: Transcript, chunk: Chunk): Transcript
    requires t.characters <= CHARACTER_LIMIT
  {
    if t.truncated || chunk.text == [] then t
    else
      var n := Room(t, chunk);
      if n == 0 then t.(truncated := true)
      else Transcript(AddText(t.blocks, chunk.key, chunk.text[..n]), t.characters + n, n != |chunk.text|)
  }

  function AppendAll(chunks: seq<Chunk>): (t: Transcript)
    ensures t.characters <= CHARACTER_LIMIT
  {
    if chunks == [] then Empty else Append(AppendAll(chunks[..|chunks| - 1]), chunks[|chunks| - 1])
  }

  class RoleTranscript {
    var blocks: seq<Block>
    var characters: nat
    var truncated: bool

    ghost function View(): Transcript
      reads this
    {
      Transcript(blocks, characters, truncated)
    }

    constructor ()
      ensures View() == Empty
    {
      blocks, characters, truncated := [], 0, false;
    }

    method AppendRoleChunk(chunk: Chunk) returns (dirty: bool)
      requires characters <= CHARACTER_LIMIT
      modifies this
      ensures View() == Append(old(View()), chunk)
      ensures dirty == (!old(truncated) && chunk.text != [])
      ensures !dirty ==> View() == old(View())
    {
      if truncated || chunk.text == [] {
        return false;
      }
      var found := IndexOf(blocks, chunk.key);
      var remaining := CHARACTER_LIMIT - characters;
      if remaining == 0 || (found.None? && |blocks| == BLOCK_LIMIT) {
        truncated := true;
        return true;
      }
      var text := if |chunk.text| <= remaining then chunk.text else chunk.text[..remaining];
      assert text == chunk.text[..Room(View(), chunk)];
      if found.None? {
        blocks := blocks + [Block(chunk.key, text)];
      } else {
        blocks := blocks[found.value := Block(chunk.key, blocks[found.value].text + text)];
      }
      characters := characters + |text|;
      truncated := |text| != |chunk.text|;
      return true;
    }
  }

  // ---- What is kept ----

  /** `kept` is the stream's text up to a point: whole chunks, then at most one cut short. */
  predicate Prefix(kept: seq<Chunk>, chunks: seq<Chunk>, whole: nat, cut: nat) {
    && whole < |chunks| && cut < |chunks[whole].text|
    && kept == chunks[..whole] + (if cut == 0 then [] else [Chunk(chunks[whole].key, chunks[whole].text[..cut])])
  }

  lemma {:induction false} KeysDistinct(chunks: seq<Chunk>)
    ensures forall i, j :: 0 <= i < j < |Keys(chunks)| ==> Keys(chunks)[i] != Keys(chunks)[j]
    ensures forall c :: c in chunks ==> c.key in Keys(chunks)
    ensures forall k :: k !in Keys(chunks) ==> TextFor(chunks, k) == []
  {
    if chunks != [] {
      KeysDistinct(chunks[..|chunks| - 1]);
      assert chunks == chunks[..|chunks| - 1] + [chunks[|chunks| - 1]];
    }
  }

  lemma AddGroups(blocks: seq<Block>, chunks: seq<Chunk>, chunk: Chunk)
    requires Groups(blocks, chunks)
    ensures Groups(AddText(blocks, chunk.key, chunk.text), chunks + [chunk])
  {
    var all := chunks + [chunk];
    assert all[..|all| - 1] == chunks;
    KeysDistinct(chunks);
    FoundExactly(blocks, chunks, chunk.key);
  }

  lemma FoundExactly(blocks: seq<Block>, chunks: seq<Chunk>, key: Key)
    requires Groups(blocks, chunks)
    ensures IndexOf(blocks, key).Some? <==> key in Keys(chunks)
    ensures IndexOf(blocks, key).Some? ==> Keys(chunks)[IndexOf(blocks, key).value] == key
  {
    assert forall k :: 0 <= k < |blocks| ==> blocks[k].key == Keys(chunks)[k];
  }

  lemma TotalJoins(chunks: seq<Chunk>, chunk: Chunk)
    ensures Total(chunks + [chunk]) == Total(chunks) + |chunk.text|
  {
    assert (chunks + [chunk])[..|chunks|] == chunks;
  }

  lemma {:induction false} TotalGrows(chunks: seq<Chunk>, k: nat)
    requires k <= |chunks|
    ensures Total(chunks[..k]) <= Total(chunks) && |Keys(chunks[..k])| <= |Keys(chunks)|
    decreases |chunks|
  {
    if k < |chunks| {
      var front := chunks[..|chunks| - 1];
      TotalGrows(front, k);
      assert front[..k] == chunks[..k];
    } else {
      assert chunks[..k] == chunks;
    }
  }

  /** The limits the whole stream would break. */
  predicate Exceeds(chunks: seq<Chunk>) {
    Total(chunks) > CHARACTER_LIMIT || |Keys(chunks)| > BLOCK_LIMIT
  }

  lemma ExceedsStays(chunks: seq<Chunk>, chunk: Chunk)
    requires Exceeds(chunks)
    ensures Exceeds(chunks + [chunk])
  {
    assert (chunks + [chunk])[..|chunks|] == chunks;
    TotalGrows(chunks + [chunk], |chunks|);
  }

  /** What the accumulator has kept after a stream of nonempty chunks `stream`. */
  ghost predicate KeptOk(t: Transcript, stream: seq<Chunk>, kept: seq<Chunk>) {
    && Groups(t.blocks, kept) && t.characters == Total(kept) <= CHARACTER_LIMIT && |t.blocks| <= BLOCK_LIMIT
    && t.truncated == Exceeds(stream)
    && (!t.truncated ==> kept == stream)
    && (t.truncated ==>
          exists whole: nat, cut: nat :: Prefix(kept, stream, whole, cut) && Full(t, kept, stream, whole, cut))
  }

  /** No more could be kept: every character is used, or another block was needed and there are as many as may be. */
  predicate Full(t: Transcript, kept: seq<Chunk>, stream: seq<Chunk>, whole: nat, cut: nat)
    requires whole < |stream|
  {
    || t.characters == CHARACTER_LIMIT
    || (cut == 0 && |t.blocks| == BLOCK_LIMIT && stream[whole].key !in Keys(kept))
  }

  lemma KeptStep(t: Transcript, stream: seq<Chunk>, kept: seq<Chunk>, chunk: Chunk) returns (next: seq<Chunk>)
    requires KeptOk(t, stream, kept) && chunk.text != []
    ensures KeptOk(Append(t, chunk), stream + [chunk], next)
  {
    var longer := stream + [chunk];
    if t.truncated {
      next := kept;
      ExceedsStays(stream, chunk);
      StaysFull(t, stream, kept, chunk);
    } else {
      var n := Room(t, chunk);
      var piece := Chunk(chunk.key, chunk.text[..n]);
      assert chunk.text[..|chunk.text|] == chunk.text;
      assert longer[..|stream|] == stream;
      TotalJoins(stream, chunk);
      TotalJoins(kept, piece);
      AddGroups(t.blocks, kept, piece);
      SameKeys(stream, chunk, t.blocks);
      next := if n == 0 then kept else kept + [piece];
      if n < |chunk.text| {
        FoundExactly(t.blocks, kept, chunk.key);
        assert Prefix(next, longer, |stream|, n) && Full(Append(t, chunk), next, longer, |stream|, n);
      }
    }
  }

  lemma StaysFull(t: Transcript, stream: seq<Chunk>, kept: seq<Chunk>, chunk: Chunk)
    requires exists whole: nat, cut: nat :: Prefix(kept, stream, whole, cut) && Full(t, kept, stream, whole, cut)
    ensures var longer := stream + [chunk];
            exists whole: nat, cut: nat :: Prefix(kept, longer, whole, cut) && Full(t, kept, longer, whole, cut)
  {
    var longer := stream + [chunk];
    var whole: nat, cut: nat :| Prefix(kept, stream, whole, cut) && Full(t, kept, stream, whole, cut);
    assert longer[..whole] == stream[..whole];
    assert Prefix(kept, longer, whole, cut) && Full(t, kept, longer, whole, cut);
  }

  lemma SameKeys(stream: seq<Chunk>, chunk: Chunk, blocks: seq<Block>)
    requires Groups(blocks, stream)
    ensures |Keys(stream + [chunk])| == if IndexOf(blocks, chunk.key).None? then |blocks| + 1 else |blocks|
  {
    assert (stream + [chunk])[..|stream|] == stream;
    FoundExactly(blocks, stream, chunk.key);
  }

  /**
   * After any stream, the blocks are the grouping of the longest prefix of its text within the limits; the transcript
   * counts as truncated exactly when the stream as a whole breaks a limit, and then some nonempty text is missing.
   */
  lemma {:induction false} Bounded(chunks: seq<Chunk>) returns (kept: seq<Chunk>)
    ensures KeptOk(AppendAll(chunks), NonEmpty(chunks), kept)
    decreases |chunks|
  {
    if chunks == [] {
      kept := [];
      assert !Exceeds([]);
    } else {
      var n := |chunks| - 1;
      kept := Bounded(chunks[..n]);
      if chunks[n].text != [] {
        kept := KeptStep(AppendAll(chunks[..n]), NonEmpty(chunks[..n]), kept, chunks[n]);
      } else {
        assert NonEmpty(chunks) == NonEmpty(chunks[..n]);
      }
    }
  }

  lemma PrefixOmits(kept: seq<Chunk>, stream: seq<Chunk>, whole: nat, cut: nat)
    requires Prefix(kept, stream, whole, cut)
    ensures Total(kept) < Total(stream)
  {
    var upTo := stream[..whole + 1];
    assert upTo[..whole] == stream[..whole];
    TotalGrows(stream, whole + 1);
    if cut > 0 {
      TotalJoins(stream[..whole], Chunk(stream[whole].key, stream[whole].text[..cut]));
    } else {
      assert kept == stream[..whole];
    }
  }

  /** The truncation flag says exactly that some nonempty text was omitted. */
  lemma TruncatedExactly(chunks: seq<Chunk>)
    ensures var t := AppendAll(chunks);
            && (t.truncated <==> Exceeds(NonEmpty(chunks)))
            && (t.truncated <==> t.characters < Total(NonEmpty(chunks)))
            && t.characters <= CHARACTER_LIMIT && |t.blocks| <= BLOCK_LIMIT
  {
    var kept := Bounded(chunks);
    var t := AppendAll(chunks);
    if t.truncated {
      var whole: nat, cut: nat :|
        Prefix(kept, NonEmpty(chunks), whole, cut) && Full(t, kept, NonEmpty(chunks), whole, cut);
      PrefixOmits(kept, NonEmpty(chunks), whole, cut);
    }
  }
}
